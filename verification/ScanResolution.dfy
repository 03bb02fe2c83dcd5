// What each of the eight source slices contributes to a scan: the fresh outcome,
// the last good evidence, or nothing.
module ScanResolution {
  import opened Wrappers
  import opened Records
  import opened Sorting
  import EnumText

  const FRESHNESS := 6 * HOUR

  datatype Slice = Slice(source: SourceName, scope: Option<SourceScope>)

  const SLICES: seq<Slice> := [
    Slice(SourceName.Omarchy, None), Slice(SourceName.Arch, None), Slice(SourceName.Aur, None),
    Slice(SourceName.Flatpak, Some(User)), Slice(SourceName.Flatpak, Some(System)),
    Slice(SourceName.Mise, None), Slice(SourceName.Security, None), Slice(SourceName.CisaKev, None)]

  datatype SourceOutcome = SourceOutcome(
    source: SourceName, scope: Option<SourceScope>, status: SourceStatus, provenance: Provenance,
    items: seq<NormalizedItem>, findings: seq<SecurityFindingGroup>,
    cause: Option<ErrorInfo>, permanent: bool, applicable: bool)

  datatype Health = OfSource(source: SourceHealth) | OfScope(scope: ScopeHealth) {
    function ObservedAt(): Instant {
      if OfSource? then source.observedAt else scope.observedAt
    }

    function FreshUntil(): Instant {
      if OfSource? then source.freshUntil else scope.freshUntil
    }

    function Status(): SourceStatus {
      if OfSource? then source.status else scope.status
    }
  }

  datatype ResolvedOutcome = ResolvedOutcome(
    outcome: SourceOutcome, health: Health, items: seq<NormalizedItem>,
    findings: seq<SecurityFindingGroup>, usable: bool)

  function KeyOf(source: SourceName, scope: Option<SourceScope>): string {
    match scope
    case None => EnumText.SourceText(source)
    case Some(s) => EnumText.SourceText(source) + ":" + EnumText.ScopeText(s)
  }

  function Key(o: SourceOutcome): string {
    KeyOf(o.source, o.scope)
  }

  predicate SuccessStatus(s: SourceStatus) {
    s.OK? || s.NotApplicable?
  }

  predicate Successful(o: SourceOutcome) {
    SuccessStatus(o.status)
  }

  // Snapshots

  function FindSource(sources: seq<SourceHealth>, source: SourceName): (r: Option<SourceHealth>)
    ensures r.Some? ==> r.value in sources && r.value.source == source
    ensures r.None? <==> forall h :: h in sources ==> h.source != source
  {
    if sources == [] then None
    else if sources[0].source == source then Some(sources[0])
    else FindSource(sources[1..], source)
  }

  function FindScope(scopes: seq<ScopeHealth>, scope: SourceScope): (r: Option<ScopeHealth>)
    ensures r.Some? ==> r.value in scopes && r.value.scope == scope
  {
    if scopes == [] then None
    else if scopes[0].scope == scope then Some(scopes[0])
    else FindScope(scopes[1..], scope)
  }

  // A snapshot that reports every source, as every validated snapshot does.
  predicate ListsEverySource(s: Snapshot) {
    forall source: SourceName :: FindSource(s.payload.sources, source).Some?
  }

  predicate Usable(previous: Option<GenerationBundle>) {
    previous.Some? ==> ListsEverySource(previous.value.snapshot) && ListsEverySource(previous.value.lastGood)
  }

  predicate BelongsTo(item: NormalizedItem, slice: Slice) {
    match slice.source
    case Omarchy => item.source.Omarchy?
    case Arch => item.source.Arch?
    case Aur => item.source.Aur?
    case Flatpak =>
      && item.source.Flatpak?
      && (if slice.scope.None? then "flatpak:None:" <= item.itemId
          else "flatpak:" + EnumText.ScopeText(slice.scope.value) + ":" <= item.itemId)
    case Mise => item.source.Mise?
    case Security => false
    case CisaKev => false
  }

  function Belonging(slice: Slice): NormalizedItem -> bool {
    (item: NormalizedItem) => BelongsTo(item, slice)
  }

  const MarkLastGood: NormalizedItem -> NormalizedItem := (item: NormalizedItem) => item.(provenance := LastGood)

  function Marked(items: seq<NormalizedItem>): seq<NormalizedItem> {
    Map(MarkLastGood, items)
  }

  function LastGoodItems(s: Snapshot, slice: Slice): seq<NormalizedItem> {
    Marked(Filter(Belonging(slice), s.payload.items))
  }

  function LastGoodFindings(s: Snapshot, slice: Slice): seq<SecurityFindingGroup> {
    if slice.source.Security? then s.payload.findings else []
  }

  // Health

  function HealthFor(o: SourceOutcome, status: SourceStatus, provenance: Provenance,
                     observedAt: Instant, freshUntil: Instant, cause: Option<ErrorInfo>): Health
  {
    match o.scope
    case None => OfSource(SourceHealth(o.source, status, provenance, observedAt, freshUntil, cause, []))
    case Some(scope) => OfScope(ScopeHealth(scope, status, provenance, observedAt, freshUntil, cause))
  }

  function FreshHealth(o: SourceOutcome, now: Instant): Health {
    HealthFor(o, o.status, o.provenance, now, now + FRESHNESS, None)
  }

  function FailedHealth(o: SourceOutcome, now: Instant): Health {
    HealthFor(o, o.status, Live, now, now, o.cause)
  }

  function StaleHealth(o: SourceOutcome, previous: Health): Health {
    HealthFor(o, Stale, LastGood, previous.ObservedAt(), previous.FreshUntil(), o.cause)
  }

  function PreviousHealth(s: Snapshot, slice: Slice, now: Instant): Health
    requires ListsEverySource(s)
  {
    var health := FindSource(s.payload.sources, slice.source).value;
    match slice.scope
    case None => OfSource(health)
    case Some(scope) =>
      var found := FindScope(health.scopes, scope);
      OfScope(if found.Some? then found.value
              else ScopeHealth(scope, Error, Live, now, now,
                               Some(ErrorInfo(SourceUnavailable, "source scope has no cached evidence"))))
  }

  function HealthCause(h: Health): Option<ErrorInfo> {
    if h.OfSource? then h.source.cause else h.scope.cause
  }

  function HealthProvenance(h: Health): Provenance {
    if h.OfSource? then h.source.provenance else h.scope.provenance
  }

  // Resolution

  // A slice that was not collected: what the previous snapshot said.
  function Cached(slice: Slice, previous: Option<GenerationBundle>, now: Instant): ResolvedOutcome
    requires Usable(previous)
  {
    match previous
    case None =>
      var o := SourceOutcome(slice.source, slice.scope, Error, Live, [], [],
                             Some(ErrorInfo(SourceUnavailable, "source has no cached evidence")),
                             false, slice.source.Aur?);
      ResolvedOutcome(o, FailedHealth(o, now), [], [], false)
    case Some(bundle) =>
      var health := PreviousHealth(bundle.snapshot, slice, now);
      var o := SourceOutcome(slice.source, slice.scope, health.Status(), HealthProvenance(health), [], [],
                             HealthCause(health), false, !health.Status().NotApplicable?);
      ResolvedOutcome(o, health, LastGoodItems(bundle.snapshot, slice), LastGoodFindings(bundle.snapshot, slice),
                      Key(o) in bundle.lastGoodKeys)
  }

  function Resolve(current: Option<SourceOutcome>, slice: Slice, previous: Option<GenerationBundle>,
                   now: Instant): ResolvedOutcome
    requires Usable(previous)
  {
    match current
    case None => Cached(slice, previous, now)
    case Some(o) =>
      if Successful(o) then ResolvedOutcome(o, FreshHealth(o, now), o.items, o.findings, true)
      else if previous.Some? && Key(o) in previous.value.lastGoodKeys then
        ResolvedOutcome(o, StaleHealth(o, PreviousHealth(previous.value.lastGood, slice, now)),
                        LastGoodItems(previous.value.lastGood, slice),
                        LastGoodFindings(previous.value.lastGood, slice), true)
      else ResolvedOutcome(o, FailedHealth(o, now), [], [], false)
  }

  function ResolveAll(outcomes: seq<Option<SourceOutcome>>, previous: Option<GenerationBundle>,
                      now: Instant): (r: seq<ResolvedOutcome>)
    requires |outcomes| == |SLICES| && Usable(previous)
    ensures |r| == |SLICES|
    ensures forall k :: 0 <= k < |SLICES| ==> r[k] == Resolve(outcomes[k], SLICES[k], previous, now)
  {
    seq(|SLICES|, k requires 0 <= k < |SLICES| => Resolve(outcomes[k], SLICES[k], previous, now))
  }
}
