// The protocol and storage records shared by the helper's modules.
// An Instant is a UTC time in whole microseconds.
module Records {
  import opened Wrappers

  type Instant = int

  const SECOND: int := 1_000_000
  const MINUTE: int := 60 * SECOND
  const HOUR: int := 60 * MINUTE
  const DAY: int := 24 * HOUR

  datatype SourceStatus =
    | OK | NotApplicable | MissingDependency | Offline | Timeout | Error | Invalid | Stale

  datatype ScanState = Complete | Partial | Failed

  datatype SourceName = Security | CisaKev | Omarchy | Arch | Aur | Flatpak | Mise

  datatype SourceScope = User | System

  datatype ItemSource = Omarchy | Arch | Aur | Flatpak | Mise

  datatype WatchMode = Off | Temporary | Permanent

  datatype Severity = Unknown | Low | Medium | High | Critical

  datatype ArchStatus = Unknown | Vulnerable | Testing | Fixed | NotAffected

  datatype KevStatus = Listed | NotListed | Unavailable

  datatype Provenance = Live | Cache | LastGood | Fallback

  datatype NotificationStatus = Delivered | Pending | Suppressed | Failed

  datatype ErrorCode =
    | CliUsage | StateUnavailable | InvalidUtf8 | PayloadTooLarge | MalformedJson | InvalidType
    | MissingField | UnknownField | ProtocolVersionMissing | ProtocolVersionInvalid
    | ProtocolVersionFuture | UnknownEnum | InvalidTimestamp | InvalidEnvelope
    | DuplicateItemId | DuplicateFindingId | OutputTooLarge | SourceInvalid | SourceUnavailable

  datatype ErrorInfo = ErrorInfo(code: ErrorCode, message: string)

  datatype ScopeHealth = ScopeHealth(
    scope: SourceScope, status: SourceStatus, provenance: Provenance,
    observedAt: Instant, freshUntil: Instant, cause: Option<ErrorInfo>)

  datatype SourceHealth = SourceHealth(
    source: SourceName, status: SourceStatus, provenance: Provenance,
    observedAt: Instant, freshUntil: Instant, cause: Option<ErrorInfo>, scopes: seq<ScopeHealth>)

  datatype Summary = Summary(
    totalUpdates: int, watchedUpdates: int, securityFindings: int, degradedSources: int)

  datatype NormalizedItem = NormalizedItem(
    itemId: string, source: ItemSource, itemLabel: string,
    installed: Option<string>, candidate: Option<string>,
    watchMode: WatchMode, watchable: bool, provenance: Provenance,
    installedFingerprint: Option<string>, candidateFingerprint: Option<string>, watchArmed: bool)

  predicate UniqueIds(items: seq<NormalizedItem>) {
    forall i, j :: 0 <= i < j < |items| ==> items[i].itemId != items[j].itemId
  }

  datatype SecurityFinding = SecurityFinding(
    findingId: string, itemId: string, advisoryId: string, cveIds: seq<string>,
    severity: Severity, fixedVersion: Option<string>, knownExploited: bool,
    provenance: Provenance, status: ArchStatus, advisoryType: string,
    installedVersion: Option<string>, kevStatus: KevStatus, kevProvenance: Option<Provenance>)

  datatype SecurityFindingGroup = SecurityFindingGroup(itemId: string, findings: seq<SecurityFinding>)

  datatype NotificationOutcome = NotificationOutcome(fingerprint: string, status: NotificationStatus)

  datatype SnapshotPayload = SnapshotPayload(
    scanState: ScanState, sources: seq<SourceHealth>, summary: Summary,
    items: seq<NormalizedItem>, findings: seq<SecurityFindingGroup>,
    notifications: seq<NotificationOutcome>)

  datatype InventoryPayload = InventoryPayload(source: ItemSource, total: int, items: seq<NormalizedItem>)

  datatype StarResultPayload = StarResultPayload(itemId: string, mode: WatchMode, watchArmed: bool)

  datatype Envelope = Envelope(generatedAt: Instant, generationId: string, protocolVersion: int)

  datatype Snapshot = Snapshot(envelope: Envelope, payload: SnapshotPayload)

  datatype Inventory = Inventory(envelope: Envelope, payload: InventoryPayload)

  datatype Response =
    | SnapshotResponse(snapshot: Snapshot)
    | InventoryResponse(inventory: Inventory)
    | StarResultResponse(envelope: Envelope, star: StarResultPayload)
    | ErrorResponse(envelope: Envelope, error: ErrorInfo)

  const PROTOCOL_VERSION := 1

  datatype SecurityFixCondition = SecurityFixCondition(
    advisoryId: string, cveIds: seq<string>, fixedVersion: string)

  datatype WatchRecord = WatchRecord(
    itemId: string, mode: WatchMode, installedFingerprint: Option<string>,
    candidateFingerprint: Option<string>, armed: bool, condition: Option<SecurityFixCondition>)

  datatype LedgerEntry = LedgerEntry(
    fingerprint: string, status: NotificationStatus, recordedAt: Instant,
    leaseToken: Option<string>, leaseExpiresAt: Option<Instant>)
  {
    predicate IsActive() {
      status.Pending?
    }
  }

  datatype SourceMetadata = SourceMetadata(
    source: SourceName, lastSuccess: Option<Instant>, backoffUntil: Option<Instant>,
    failureCount: int, permanentFailure: bool)

  datatype PersistentState = PersistentState(
    watches: seq<WatchRecord>, ledger: seq<LedgerEntry>, sources: seq<SourceMetadata>)

  const EMPTY_STATE := PersistentState([], [], [])

  datatype GenerationBundle = GenerationBundle(
    order: int, snapshot: Snapshot, inventories: seq<Inventory>, state: PersistentState,
    lastGood: Snapshot, lastGoodKeys: seq<string>)
}
