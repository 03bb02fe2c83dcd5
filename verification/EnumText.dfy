// The texts of the enumerations, and reading them back.
module EnumText {
  import opened Wrappers
  import opened Records

  function SourceText(s: SourceName): string {
    match s
    case Security => "security"
    case CisaKev => "cisa-kev"
    case Omarchy => "omarchy"
    case Arch => "arch"
    case Aur => "aur"
    case Flatpak => "flatpak"
    case Mise => "mise"
  }

  function SourceOf(text: string): Option<SourceName> {
    if text == "security" then Some(SourceName.Security)
    else if text == "cisa-kev" then Some(SourceName.CisaKev)
    else if text == "omarchy" then Some(SourceName.Omarchy)
    else if text == "arch" then Some(SourceName.Arch)
    else if text == "aur" then Some(SourceName.Aur)
    else if text == "flatpak" then Some(SourceName.Flatpak)
    else if text == "mise" then Some(SourceName.Mise)
    else None
  }

  function ScopeText(s: SourceScope): string {
    match s case User => "user" case System => "system"
  }

  function ScopeOf(text: string): Option<SourceScope> {
    if text == "user" then Some(User) else if text == "system" then Some(System) else None
  }

  function ItemSourceText(s: ItemSource): string {
    match s
    case Omarchy => "omarchy"
    case Arch => "arch"
    case Aur => "aur"
    case Flatpak => "flatpak"
    case Mise => "mise"
  }

  function ItemSourceOf(text: string): Option<ItemSource> {
    if text == "omarchy" then Some(ItemSource.Omarchy)
    else if text == "arch" then Some(ItemSource.Arch)
    else if text == "aur" then Some(ItemSource.Aur)
    else if text == "flatpak" then Some(ItemSource.Flatpak)
    else if text == "mise" then Some(ItemSource.Mise)
    else None
  }

  function StatusText(s: SourceStatus): string {
    match s
    case OK => "ok"
    case NotApplicable => "not_applicable"
    case MissingDependency => "missing_dependency"
    case Offline => "offline"
    case Timeout => "timeout"
    case Error => "error"
    case Invalid => "invalid"
    case Stale => "stale"
  }

  function StatusOf(text: string): Option<SourceStatus> {
    if text == "ok" then Some(OK)
    else if text == "not_applicable" then Some(NotApplicable)
    else if text == "missing_dependency" then Some(MissingDependency)
    else if text == "offline" then Some(Offline)
    else if text == "timeout" then Some(Timeout)
    else if text == "error" then Some(Error)
    else if text == "invalid" then Some(Invalid)
    else if text == "stale" then Some(Stale)
    else None
  }

  function ScanStateText(s: ScanState): string {
    match s case Complete => "complete" case Partial => "partial" case Failed => "failed"
  }

  function ScanStateOf(text: string): Option<ScanState> {
    if text == "complete" then Some(Complete)
    else if text == "partial" then Some(Partial)
    else if text == "failed" then Some(ScanState.Failed)
    else None
  }

  function ModeText(m: WatchMode): string {
    match m case Off => "off" case Temporary => "temporary" case Permanent => "permanent"
  }

  function ModeOf(text: string): Option<WatchMode> {
    if text == "off" then Some(Off)
    else if text == "temporary" then Some(Temporary)
    else if text == "permanent" then Some(Permanent)
    else None
  }

  function SeverityText(s: Severity): string {
    match s
    case Unknown => "unknown"
    case Low => "low"
    case Medium => "medium"
    case High => "high"
    case Critical => "critical"
  }

  function SeverityOf(text: string): Option<Severity> {
    if text == "unknown" then Some(Severity.Unknown)
    else if text == "low" then Some(Low)
    else if text == "medium" then Some(Medium)
    else if text == "high" then Some(High)
    else if text == "critical" then Some(Critical)
    else None
  }

  function ArchStatusText(s: ArchStatus): string {
    match s
    case Unknown => "Unknown"
    case Vulnerable => "Vulnerable"
    case Testing => "Testing"
    case Fixed => "Fixed"
    case NotAffected => "Not affected"
  }

  function ArchStatusOf(text: string): Option<ArchStatus> {
    if text == "Unknown" then Some(ArchStatus.Unknown)
    else if text == "Vulnerable" then Some(Vulnerable)
    else if text == "Testing" then Some(Testing)
    else if text == "Fixed" then Some(Fixed)
    else if text == "Not affected" then Some(NotAffected)
    else None
  }

  function KevText(s: KevStatus): string {
    match s case Listed => "listed" case NotListed => "not_listed" case Unavailable => "unavailable"
  }

  function KevOf(text: string): Option<KevStatus> {
    if text == "listed" then Some(Listed)
    else if text == "not_listed" then Some(NotListed)
    else if text == "unavailable" then Some(Unavailable)
    else None
  }

  function ProvenanceText(p: Provenance): string {
    match p
    case Live => "live"
    case Cache => "cache"
    case LastGood => "last_good"
    case Fallback => "fallback"
  }

  function ProvenanceOf(text: string): Option<Provenance> {
    if text == "live" then Some(Live)
    else if text == "cache" then Some(Cache)
    else if text == "last_good" then Some(LastGood)
    else if text == "fallback" then Some(Fallback)
    else None
  }

  function NotificationText(s: NotificationStatus): string {
    match s
    case Delivered => "delivered"
    case Pending => "pending"
    case Suppressed => "suppressed"
    case Failed => "failed"
  }

  function NotificationOf(text: string): Option<NotificationStatus> {
    if text == "delivered" then Some(Delivered)
    else if text == "pending" then Some(Pending)
    else if text == "suppressed" then Some(Suppressed)
    else if text == "failed" then Some(NotificationStatus.Failed)
    else None
  }

  function ErrorText(c: ErrorCode): string {
    match c
    case CliUsage => "CLI_USAGE"
    case StateUnavailable => "STATE_UNAVAILABLE"
    case InvalidUtf8 => "INVALID_UTF8"
    case PayloadTooLarge => "PAYLOAD_TOO_LARGE"
    case MalformedJson => "MALFORMED_JSON"
    case InvalidType => "INVALID_TYPE"
    case MissingField => "MISSING_FIELD"
    case UnknownField => "UNKNOWN_FIELD"
    case ProtocolVersionMissing => "PROTOCOL_VERSION_MISSING"
    case ProtocolVersionInvalid => "PROTOCOL_VERSION_INVALID"
    case ProtocolVersionFuture => "PROTOCOL_VERSION_FUTURE"
    case UnknownEnum => "UNKNOWN_ENUM"
    case InvalidTimestamp => "INVALID_TIMESTAMP"
    case InvalidEnvelope => "INVALID_ENVELOPE"
    case DuplicateItemId => "DUPLICATE_ITEM_ID"
    case DuplicateFindingId => "DUPLICATE_FINDING_ID"
    case OutputTooLarge => "OUTPUT_TOO_LARGE"
    case SourceInvalid => "SOURCE_INVALID"
    case SourceUnavailable => "SOURCE_UNAVAILABLE"
  }

  function ErrorOf(text: string): Option<ErrorCode> {
    if text == "CLI_USAGE" then Some(CliUsage)
    else if text == "STATE_UNAVAILABLE" then Some(StateUnavailable)
    else if text == "INVALID_UTF8" then Some(InvalidUtf8)
    else if text == "PAYLOAD_TOO_LARGE" then Some(PayloadTooLarge)
    else if text == "MALFORMED_JSON" then Some(MalformedJson)
    else if text == "INVALID_TYPE" then Some(InvalidType)
    else if text == "MISSING_FIELD" then Some(MissingField)
    else if text == "UNKNOWN_FIELD" then Some(UnknownField)
    else if text == "PROTOCOL_VERSION_MISSING" then Some(ProtocolVersionMissing)
    else if text == "PROTOCOL_VERSION_INVALID" then Some(ProtocolVersionInvalid)
    else if text == "PROTOCOL_VERSION_FUTURE" then Some(ProtocolVersionFuture)
    else if text == "UNKNOWN_ENUM" then Some(UnknownEnum)
    else LateErrorOf(text)
  }

  // The error codes declared after UNKNOWN_ENUM.
  function LateErrorOf(text: string): Option<ErrorCode> {
    if text == "INVALID_TIMESTAMP" then Some(InvalidTimestamp)
    else if text == "INVALID_ENVELOPE" then Some(InvalidEnvelope)
    else if text == "DUPLICATE_ITEM_ID" then Some(DuplicateItemId)
    else if text == "DUPLICATE_FINDING_ID" then Some(DuplicateFindingId)
    else if text == "OUTPUT_TOO_LARGE" then Some(OutputTooLarge)
    else if text == "SOURCE_INVALID" then Some(SourceInvalid)
    else if text == "SOURCE_UNAVAILABLE" then Some(SourceUnavailable)
    else None
  }

  lemma SourceRead(s: SourceName)
    ensures SourceOf(SourceText(s)) == Some(s)
  {
  }

  lemma ScopeRead(s: SourceScope)
    ensures ScopeOf(ScopeText(s)) == Some(s)
  {
  }

  lemma ItemSourceRead(s: ItemSource)
    ensures ItemSourceOf(ItemSourceText(s)) == Some(s)
  {
  }

  lemma StatusRead(s: SourceStatus)
    ensures StatusOf(StatusText(s)) == Some(s)
  {
  }

  lemma ScanStateRead(s: ScanState)
    ensures ScanStateOf(ScanStateText(s)) == Some(s)
  {
  }

  lemma ModeRead(m: WatchMode)
    ensures ModeOf(ModeText(m)) == Some(m)
  {
  }

  lemma SeverityRead(s: Severity)
    ensures SeverityOf(SeverityText(s)) == Some(s)
  {
  }

  lemma ArchStatusRead(s: ArchStatus)
    ensures ArchStatusOf(ArchStatusText(s)) == Some(s)
  {
  }

  lemma KevRead(s: KevStatus)
    ensures KevOf(KevText(s)) == Some(s)
  {
  }

  lemma ProvenanceRead(p: Provenance)
    ensures ProvenanceOf(ProvenanceText(p)) == Some(p)
  {
  }

  lemma NotificationRead(s: NotificationStatus)
    ensures NotificationOf(NotificationText(s)) == Some(s)
  {
  }

  predicate Late(c: ErrorCode) {
    || c.InvalidTimestamp? || c.InvalidEnvelope? || c.DuplicateItemId? || c.DuplicateFindingId?
    || c.OutputTooLarge? || c.SourceInvalid? || c.SourceUnavailable?
  }

  lemma LateErrorRead(c: ErrorCode)
    requires Late(c)
    ensures LateErrorOf(ErrorText(c)) == Some(c)
  {
  }

  lemma ErrorRead(c: ErrorCode)
    ensures ErrorOf(ErrorText(c)) == Some(c)
  {
    if Late(c) {
      LateErrorRead(c);
    }
  }
}
