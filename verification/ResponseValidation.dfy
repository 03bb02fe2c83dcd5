// What a response must satisfy before it is printed and after it is parsed.
module ResponseValidation {
  import opened Wrappers
  import opened Records
  import opened StateValidation

  const MAX_IDENTIFIER_LENGTH := 128
  const MAX_ERROR_MESSAGE_LENGTH := 512

  // The error a check raises, if any.
  type Check = Option<ErrorCode>

  function Require(condition: bool, error: ErrorCode): Check {
    if condition then None else Some(error)
  }

  // The first error among checks made in order.
  function InOrder(checks: seq<Check>): (r: Check)
    ensures r.None? <==> forall c :: c in checks ==> c.None?
  {
    if checks == [] then None
    else if checks[0].Some? then checks[0]
    else
      var r := InOrder(checks[1..]);
      assert checks == [checks[0]] + checks[1..];
      r
  }

  function EachOf<T>(check: T -> Check, xs: seq<T>): (r: Check)
    ensures r.None? <==> forall x :: x in xs ==> check(x).None?
  {
    if xs == [] then None
    else if check(xs[0]).Some? then check(xs[0])
    else
      var r := EachOf(check, xs[1..]);
      assert xs == [xs[0]] + xs[1..];
      r
  }

  function Bounded(text: string, maximum: nat): Check {
    Require(1 <= |text| <= maximum, InvalidType)
  }

  function Identifier(text: string): Check {
    Bounded(text, MAX_IDENTIFIER_LENGTH)
  }

  function Nonnegative(value: int): Check {
    Require(value >= 0, InvalidType)
  }

  function OptionalIdentifier(text: Option<string>): Check {
    if text.None? then None else Identifier(text.value)
  }

  function ErrorCheck(error: ErrorInfo): Check {
    Bounded(error.message, MAX_ERROR_MESSAGE_LENGTH)
  }

  function CauseCheck(cause: Option<ErrorInfo>): Check {
    if cause.None? then None else ErrorCheck(cause.value)
  }

  function MetadataCheck(envelope: Envelope): Check {
    InOrder([Require(envelope.protocolVersion <= PROTOCOL_VERSION, ProtocolVersionFuture),
             Require(envelope.protocolVersion == PROTOCOL_VERSION, ProtocolVersionInvalid),
             Identifier(envelope.generationId)])
  }

  // Items

  function ItemCheck(item: NormalizedItem): Check {
    InOrder([Require(item.watchArmed ==> item.watchMode.Temporary?, InvalidEnvelope),
             Identifier(item.itemId), Identifier(item.itemLabel),
             OptionalIdentifier(item.installedFingerprint), OptionalIdentifier(item.candidateFingerprint)])
  }

  function ItemsCheck(items: seq<NormalizedItem>): Check {
    if !UniqueIds(items) then Some(DuplicateItemId) else EachOf(ItemCheck, items)
  }

  // Sources

  function ScopeCheck(scope: ScopeHealth): Check {
    CauseCheck(scope.cause)
  }

  function ScopesCheck(source: SourceHealth): Check {
    if source.scopes == [] then None
    else if !source.source.Flatpak? then Some(InvalidEnvelope)
    else if !(|source.scopes| == 2 && source.scopes[0].scope != source.scopes[1].scope) then Some(InvalidEnvelope)
    else EachOf(ScopeCheck, source.scopes)
  }

  function SourceCheck(source: SourceHealth): Check {
    InOrder([CauseCheck(source.cause), ScopesCheck(source)])
  }

  predicate Reports(sources: seq<SourceHealth>, name: SourceName) {
    exists s :: s in sources && s.source == name
  }

  predicate EachSourceOnce(sources: seq<SourceHealth>) {
    && (forall i, j :: 0 <= i < j < |sources| ==> sources[i].source != sources[j].source)
    && forall name: SourceName :: Reports(sources, name)
  }

  function SourcesCheck(sources: seq<SourceHealth>): Check {
    if !EachSourceOnce(sources) then Some(InvalidEnvelope) else EachOf(SourceCheck, sources)
  }

  // Findings

  function AvgCheck(text: string): Check {
    InOrder([Identifier(text), Require(5 <= |text| && text[..4] == "AVG-" && AllDigits(text[4..]), InvalidType)])
  }

  function KevCheck(finding: SecurityFinding): Check {
    match finding.kevStatus
    case Listed => Require(finding.knownExploited && finding.kevProvenance.Some?, InvalidEnvelope)
    case NotListed => Require(!finding.knownExploited && finding.kevProvenance.Some?, InvalidEnvelope)
    case Unavailable => Require(!finding.knownExploited && finding.kevProvenance.None?, InvalidEnvelope)
  }

  function FindingCheck(group: SecurityFindingGroup): SecurityFinding -> Check {
    (finding: SecurityFinding) =>
      InOrder([Require(finding.itemId == group.itemId, InvalidEnvelope),
               AvgCheck(finding.findingId), AvgCheck(finding.advisoryId),
               Require(finding.findingId == finding.advisoryId, InvalidEnvelope),
               Identifier(finding.advisoryType), OptionalIdentifier(finding.installedVersion),
               KevCheck(finding)])
  }

  function FindItem(items: seq<NormalizedItem>, itemId: string): Option<NormalizedItem> {
    if items == [] then None
    else if items[0].itemId == itemId then Some(items[0])
    else FindItem(items[1..], itemId)
  }

  predicate UniqueFindingIds(findings: seq<SecurityFinding>) {
    forall i, j :: 0 <= i < j < |findings| ==> findings[i].findingId != findings[j].findingId
  }

  function GroupCheck(items: seq<NormalizedItem>): SecurityFindingGroup -> Check {
    (group: SecurityFindingGroup) =>
      var item := FindItem(items, group.itemId);
      InOrder([Require(item.Some? ==> item.value.source.Arch?, InvalidEnvelope),
               Require("arch:" <= group.itemId, InvalidEnvelope),
               Require(group.findings != [], InvalidEnvelope),
               Require(UniqueFindingIds(group.findings), DuplicateFindingId),
               EachOf(FindingCheck(group), group.findings)])
  }

  predicate UniqueGroups(groups: seq<SecurityFindingGroup>) {
    forall i, j :: 0 <= i < j < |groups| ==> groups[i].itemId != groups[j].itemId
  }

  function GroupsCheck(groups: seq<SecurityFindingGroup>, items: seq<NormalizedItem>): Check {
    if !UniqueGroups(groups) then Some(InvalidEnvelope) else EachOf(GroupCheck(items), groups)
  }

  // Payloads

  function SnapshotCheck(payload: SnapshotPayload): Check {
    InOrder([SourcesCheck(payload.sources), ItemsCheck(payload.items), GroupsCheck(payload.findings, payload.items),
             Nonnegative(payload.summary.totalUpdates), Nonnegative(payload.summary.watchedUpdates),
             Nonnegative(payload.summary.securityFindings), Nonnegative(payload.summary.degradedSources)])
  }

  function InventoryCheck(payload: InventoryPayload): Check {
    InOrder([Require(!payload.source.Omarchy?, InvalidEnvelope),
             Nonnegative(payload.total),
             Require(payload.total >= |payload.items|, InvalidEnvelope),
             ItemsCheck(payload.items),
             Require(forall item :: item in payload.items ==> item.source == payload.source, InvalidEnvelope)])
  }

  function StarResultCheck(payload: StarResultPayload): Check {
    InOrder([Identifier(payload.itemId), Require(payload.watchArmed ==> payload.mode.Temporary?, InvalidEnvelope)])
  }

  function EnvelopeOf(r: Response): Envelope {
    match r
    case SnapshotResponse(snapshot) => snapshot.envelope
    case InventoryResponse(inventory) => inventory.envelope
    case StarResultResponse(envelope, _) => envelope
    case ErrorResponse(envelope, _) => envelope
  }

  function PayloadCheck(r: Response): Check {
    match r
    case SnapshotResponse(snapshot) => SnapshotCheck(snapshot.payload)
    case InventoryResponse(inventory) => InventoryCheck(inventory.payload)
    case StarResultResponse(_, star) => StarResultCheck(star)
    case ErrorResponse(_, error) => ErrorCheck(error)
  }

  function ValidateResponse(r: Response): Check {
    InOrder([MetadataCheck(EnvelopeOf(r)), PayloadCheck(r)])
  }
}
