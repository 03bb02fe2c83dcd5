// Responses as JSON values: printing a validated response, and reading one back.
module Wire {
  import opened Wrappers
  import opened Records
  import opened Sorting
  import opened JsonTree
  import opened EnumText
  import opened ResponseValidation

  type Parsed<T> = Result<T, ErrorCode>

  // Printing

  function ErrorValue(error: ErrorInfo): Json {
    JObject(map["code" := JString(ErrorText(error.code)), "message" := JString(error.message)])
  }

  function CauseValue(cause: Option<ErrorInfo>): Json {
    if cause.None? then JNull else ErrorValue(cause.value)
  }

  function ScopeValue(codec: TextCodec, scope: ScopeHealth): Json {
    JObject(map["cause" := CauseValue(scope.cause),
                "freshUntil" := JString(codec.format(scope.freshUntil)),
                "observedAt" := JString(codec.format(scope.observedAt)),
                "provenance" := JString(ProvenanceText(scope.provenance)),
                "scope" := JString(ScopeText(scope.scope)),
                "status" := JString(StatusText(scope.status))])
  }

  function ScopeWriter(codec: TextCodec): ScopeHealth -> Json {
    (scope: ScopeHealth) => ScopeValue(codec, scope)
  }

  function SourceFields(codec: TextCodec, source: SourceHealth): map<string, Json> {
    map["cause" := CauseValue(source.cause),
        "freshUntil" := JString(codec.format(source.freshUntil)),
        "observedAt" := JString(codec.format(source.observedAt)),
        "provenance" := JString(ProvenanceText(source.provenance)),
        "source" := JString(SourceText(source.source)),
        "status" := JString(StatusText(source.status))]
  }

  // Empty scopes are left out.
  function SourceValue(codec: TextCodec, source: SourceHealth): Json {
    var fields := SourceFields(codec, source);
    JObject(if source.scopes == [] then fields
            else fields["scopes" := JArray(PrintAll(ScopeWriter(codec), source.scopes))])
  }

  function SourceWriter(codec: TextCodec): SourceHealth -> Json {
    (source: SourceHealth) => SourceValue(codec, source)
  }

  function SummaryValue(summary: Summary): Json {
    JObject(map["degradedSources" := JInt(summary.degradedSources),
                "securityFindings" := JInt(summary.securityFindings),
                "totalUpdates" := JInt(summary.totalUpdates),
                "watchedUpdates" := JInt(summary.watchedUpdates)])
  }

  function OptionalValue(text: Option<string>): Json {
    if text.None? then JNull else JString(text.value)
  }

  function ItemFields(item: NormalizedItem): map<string, Json> {
    map["candidate" := OptionalValue(item.candidate),
        "id" := JString(item.itemId),
        "installed" := OptionalValue(item.installed),
        "label" := JString(item.itemLabel),
        "provenance" := JString(ProvenanceText(item.provenance)),
        "source" := JString(ItemSourceText(item.source)),
        "watchMode" := JString(ModeText(item.watchMode)),
        "watchArmed" := JBool(item.watchArmed),
        "watchable" := JBool(item.watchable)]
  }

  // A field that is present only when there is a text for it.
  function Including(fields: map<string, Json>, name: string, text: Option<string>): map<string, Json> {
    if text.None? then fields else fields[name := JString(text.value)]
  }

  function ItemValue(item: NormalizedItem): Json {
    JObject(Including(Including(ItemFields(item), "installedFingerprint", item.installedFingerprint),
                      "candidateFingerprint", item.candidateFingerprint))
  }

  function StringValue(text: string): Json {
    JString(text)
  }

  function KevProvenanceValue(provenance: Option<Provenance>): Json {
    if provenance.None? then JNull else JString(ProvenanceText(provenance.value))
  }

  function FindingValue(finding: SecurityFinding): Json {
    JObject(map["advisoryId" := JString(finding.advisoryId),
                "cveIds" := JArray(PrintAll(StringValue, finding.cveIds)),
                "fixedVersion" := OptionalValue(finding.fixedVersion),
                "id" := JString(finding.findingId),
                "installedVersion" := OptionalValue(finding.installedVersion),
                "itemId" := JString(finding.itemId),
                "kevProvenance" := KevProvenanceValue(finding.kevProvenance),
                "kevStatus" := JString(KevText(finding.kevStatus)),
                "knownExploited" := JBool(finding.knownExploited),
                "provenance" := JString(ProvenanceText(finding.provenance)),
                "severity" := JString(SeverityText(finding.severity)),
                "status" := JString(ArchStatusText(finding.status)),
                "type" := JString(finding.advisoryType)])
  }

  function GroupValue(group: SecurityFindingGroup): Json {
    JObject(map["findings" := JArray(PrintAll(FindingValue, group.findings)), "itemId" := JString(group.itemId)])
  }

  function NotificationValue(outcome: NotificationOutcome): Json {
    JObject(map["fingerprint" := JString(outcome.fingerprint), "status" := JString(NotificationText(outcome.status))])
  }

  function SnapshotValue(codec: TextCodec, payload: SnapshotPayload): Json {
    JObject(map["findings" := JArray(PrintAll(GroupValue, payload.findings)),
                "items" := JArray(PrintAll(ItemValue, payload.items)),
                "notifications" := JArray(PrintAll(NotificationValue, payload.notifications)),
                "scanState" := JString(ScanStateText(payload.scanState)),
                "sources" := JArray(PrintAll(SourceWriter(codec), payload.sources)),
                "summary" := SummaryValue(payload.summary)])
  }

  function InventoryValue(payload: InventoryPayload): Json {
    JObject(map["items" := JArray(PrintAll(ItemValue, payload.items)),
                "source" := JString(ItemSourceText(payload.source)),
                "total" := JInt(payload.total)])
  }

  function StarResultValue(payload: StarResultPayload): Json {
    JObject(map["itemId" := JString(payload.itemId),
                "mode" := JString(ModeText(payload.mode)),
                "watchArmed" := JBool(payload.watchArmed)])
  }

  // The envelope around a payload, or around an error under the field of that name.
  function EnvelopeFields(codec: TextCodec, envelope: Envelope, kind: string, name: string,
                          content: Json): map<string, Json> {
    map["generatedAt" := JString(codec.format(envelope.generatedAt)),
        "generationId" := JString(envelope.generationId),
        "kind" := JString(kind),
        name := content,
        "protocolVersion" := JInt(envelope.protocolVersion)]
  }

  function EnvelopeValue(codec: TextCodec, envelope: Envelope, kind: string, name: string, content: Json): Json {
    JObject(EnvelopeFields(codec, envelope, kind, name, content))
  }

  function ResponseValue(codec: TextCodec, r: Response): Parsed<Json> {
    if ValidateResponse(r).Some? then Err(ValidateResponse(r).value)
    else
      Ok(match r
         case SnapshotResponse(s) =>
           EnvelopeValue(codec, s.envelope, "snapshot", "payload", SnapshotValue(codec, s.payload))
         case InventoryResponse(i) =>
           EnvelopeValue(codec, i.envelope, "inventory", "payload", InventoryValue(i.payload))
         case StarResultResponse(envelope, star) =>
           EnvelopeValue(codec, envelope, "star-result", "payload", StarResultValue(star))
         case ErrorResponse(envelope, error) =>
           EnvelopeValue(codec, envelope, "error", "error", ErrorValue(error)))
  }

  // Field readers

  function Reader(value: Json, names: set<string>): Parsed<map<string, Json>> {
    if !value.JObject? then Err(InvalidType)
    else if !(value.fields.Keys <= names) then Err(UnknownField)
    else Ok(value.fields)
  }

  function Field(fields: map<string, Json>, name: string): Parsed<Json> {
    if name in fields then Ok(fields[name]) else Err(MissingField)
  }

  function Text(value: Json): Parsed<string> {
    if value.JString? then Ok(value.text) else Err(InvalidType)
  }

  function OptionalText(value: Json): Parsed<Option<string>> {
    if value.JNull? then Ok(None)
    else
      var text :- Text(value);
      Ok(Some(text))
  }

  function BoundedText(value: Json, maximum: nat): Parsed<string> {
    var text :- Text(value);
    if text == "" || |text| > maximum then Err(InvalidType) else Ok(text)
  }

  function Boolean(value: Json): Parsed<bool> {
    if value.JBool? then Ok(value.flag) else Err(InvalidType)
  }

  function NonnegativeInt(value: Json): Parsed<int> {
    if !value.JInt? || value.number < 0 then Err(InvalidType) else Ok(value.number)
  }

  function Items(value: Json): Parsed<seq<Json>> {
    if value.JArray? then Ok(value.items) else Err(InvalidType)
  }

  function Timestamp(codec: TextCodec, value: Json): Parsed<Instant> {
    var raw :- Text(value);
    if !Stamped(raw) || codec.fromIso(WithOffset(raw)).None? then Err(InvalidTimestamp)
    else Ok(codec.fromIso(WithOffset(raw)).value)
  }

  function Enum<T>(value: Json, of: string -> Option<T>): Parsed<T> {
    var text :- Text(value);
    if of(text).None? then Err(UnknownEnum) else Ok(of(text).value)
  }

  // Fields read by name

  function TextField(fields: map<string, Json>, name: string): Parsed<string> {
    var value :- Field(fields, name);
    Text(value)
  }

  function OptionalField(fields: map<string, Json>, name: string): Parsed<Option<string>> {
    var value :- Field(fields, name);
    OptionalText(value)
  }

  function BooleanField(fields: map<string, Json>, name: string): Parsed<bool> {
    var value :- Field(fields, name);
    Boolean(value)
  }

  function IntField(fields: map<string, Json>, name: string): Parsed<int> {
    var value :- Field(fields, name);
    NonnegativeInt(value)
  }

  function TimeField(codec: TextCodec, fields: map<string, Json>, name: string): Parsed<Instant> {
    var value :- Field(fields, name);
    Timestamp(codec, value)
  }

  function EnumField<T>(fields: map<string, Json>, name: string, of: string -> Option<T>): Parsed<T> {
    var value :- Field(fields, name);
    Enum(value, of)
  }

  function ListField<T>(fields: map<string, Json>, name: string, read: Json -> Parsed<T>): Parsed<seq<T>> {
    var value :- Field(fields, name);
    var values :- Items(value);
    ParseAll(read, values)
  }

  // Parsing

  function ParseError(value: Json): Parsed<ErrorInfo> {
    var fields :- Reader(value, {"code", "message"});
    var code :- EnumField(fields, "code", ErrorOf);
    var messageValue :- Field(fields, "message");
    var message :- BoundedText(messageValue, MAX_ERROR_MESSAGE_LENGTH);
    Ok(ErrorInfo(code, message))
  }

  function ParseCause(value: Json): Parsed<Option<ErrorInfo>> {
    if value.JNull? then Ok(None)
    else
      var error :- ParseError(value);
      Ok(Some(error))
  }

  function ParseScope(codec: TextCodec, value: Json): Parsed<ScopeHealth> {
    var fields :- Reader(value, {"scope", "status", "provenance", "observedAt", "freshUntil", "cause"});
    var causeValue :- Field(fields, "cause");
    var cause :- ParseCause(causeValue);
    var scope :- EnumField(fields, "scope", ScopeOf);
    var status :- EnumField(fields, "status", StatusOf);
    var provenance :- EnumField(fields, "provenance", ProvenanceOf);
    var observedAt :- TimeField(codec, fields, "observedAt");
    var freshUntil :- TimeField(codec, fields, "freshUntil");
    Ok(ScopeHealth(scope, status, provenance, observedAt, freshUntil, cause))
  }

  function ScopeReader(codec: TextCodec): Json -> Parsed<ScopeHealth> {
    (value: Json) => ParseScope(codec, value)
  }

  function ParseSource(codec: TextCodec, value: Json): Parsed<SourceHealth> {
    var fields :- Reader(value, {"source", "status", "provenance", "observedAt", "freshUntil", "cause", "scopes"});
    var causeValue :- Field(fields, "cause");
    var cause :- ParseCause(causeValue);
    var scopes :- (if "scopes" !in fields then Ok([]) else ListField(fields, "scopes", ScopeReader(codec)));
    var source :- EnumField(fields, "source", SourceOf);
    var status :- EnumField(fields, "status", StatusOf);
    var provenance :- EnumField(fields, "provenance", ProvenanceOf);
    var observedAt :- TimeField(codec, fields, "observedAt");
    var freshUntil :- TimeField(codec, fields, "freshUntil");
    Ok(SourceHealth(source, status, provenance, observedAt, freshUntil, cause, scopes))
  }

  function SourceReader(codec: TextCodec): Json -> Parsed<SourceHealth> {
    (value: Json) => ParseSource(codec, value)
  }

  function ParseSummary(value: Json): Parsed<Summary> {
    var fields :- Reader(value, {"totalUpdates", "watchedUpdates", "securityFindings", "degradedSources"});
    var total :- IntField(fields, "totalUpdates");
    var watched :- IntField(fields, "watchedUpdates");
    var security :- IntField(fields, "securityFindings");
    var degraded :- IntField(fields, "degradedSources");
    Ok(Summary(total, watched, security, degraded))
  }

  function IfPresent(fields: map<string, Json>, name: string): Parsed<Option<string>> {
    if name !in fields then Ok(None) else OptionalField(fields, name)
  }

  const ITEM_FIELDS: set<string> := {
    "id", "source", "label", "installed", "candidate", "watchMode", "watchArmed", "watchable", "provenance",
    "installedFingerprint", "candidateFingerprint"}

  function ParseItem(value: Json): Parsed<NormalizedItem> {
    var fields :- Reader(value, ITEM_FIELDS);
    var installedFingerprint :- IfPresent(fields, "installedFingerprint");
    var candidateFingerprint :- IfPresent(fields, "candidateFingerprint");
    var itemId :- TextField(fields, "id");
    var source :- EnumField(fields, "source", ItemSourceOf);
    var itemLabel :- TextField(fields, "label");
    var installed :- OptionalField(fields, "installed");
    var candidate :- OptionalField(fields, "candidate");
    var watchMode :- EnumField(fields, "watchMode", ModeOf);
    var watchable :- BooleanField(fields, "watchable");
    var provenance :- EnumField(fields, "provenance", ProvenanceOf);
    var watchArmed :- BooleanField(fields, "watchArmed");
    Ok(NormalizedItem(itemId, source, itemLabel, installed, candidate, watchMode, watchable, provenance,
                      installedFingerprint, candidateFingerprint, watchArmed))
  }

  const FINDING_FIELDS: set<string> := {
    "id", "itemId", "advisoryId", "cveIds", "severity", "fixedVersion", "installedVersion", "knownExploited",
    "kevStatus", "kevProvenance", "provenance", "status", "type"}

  function ParseKevProvenance(value: Json): Parsed<Option<Provenance>> {
    if value.JNull? then Ok(None)
    else
      var provenance :- Enum(value, ProvenanceOf);
      Ok(Some(provenance))
  }

  function ParseFinding(value: Json): Parsed<SecurityFinding> {
    var fields :- Reader(value, FINDING_FIELDS);
    var cveIds :- ListField(fields, "cveIds", Text);
    var findingId :- TextField(fields, "id");
    var itemId :- TextField(fields, "itemId");
    var advisoryId :- TextField(fields, "advisoryId");
    var severity :- EnumField(fields, "severity", SeverityOf);
    var fixedVersion :- OptionalField(fields, "fixedVersion");
    var knownExploited :- BooleanField(fields, "knownExploited");
    var provenance :- EnumField(fields, "provenance", ProvenanceOf);
    var status :- EnumField(fields, "status", ArchStatusOf);
    var advisoryType :- TextField(fields, "type");
    var installedVersion :- OptionalField(fields, "installedVersion");
    var kevStatus :- EnumField(fields, "kevStatus", KevOf);
    var kevValue :- Field(fields, "kevProvenance");
    var kevProvenance :- ParseKevProvenance(kevValue);
    Ok(SecurityFinding(findingId, itemId, advisoryId, cveIds, severity, fixedVersion, knownExploited, provenance,
                       status, advisoryType, installedVersion, kevStatus, kevProvenance))
  }

  function ParseGroup(value: Json): Parsed<SecurityFindingGroup> {
    var fields :- Reader(value, {"itemId", "findings"});
    var itemId :- TextField(fields, "itemId");
    var findings :- ListField(fields, "findings", ParseFinding);
    Ok(SecurityFindingGroup(itemId, findings))
  }

  function ParseNotification(value: Json): Parsed<NotificationOutcome> {
    var fields :- Reader(value, {"fingerprint", "status"});
    var fingerprint :- TextField(fields, "fingerprint");
    var status :- EnumField(fields, "status", NotificationOf);
    Ok(NotificationOutcome(fingerprint, status))
  }

  function ParseSnapshot(codec: TextCodec, value: Json): Parsed<SnapshotPayload> {
    var fields :- Reader(value, {"scanState", "sources", "summary", "items", "findings", "notifications"});
    var sources :- ListField(fields, "sources", SourceReader(codec));
    var items :- ListField(fields, "items", ParseItem);
    var findings :- ListField(fields, "findings", ParseGroup);
    var notifications :- ListField(fields, "notifications", ParseNotification);
    var scanState :- EnumField(fields, "scanState", EnumText.ScanStateOf);
    var summaryValue :- Field(fields, "summary");
    var summary :- ParseSummary(summaryValue);
    Ok(SnapshotPayload(scanState, sources, summary, items, findings, notifications))
  }

  function ParseInventory(value: Json): Parsed<InventoryPayload> {
    var fields :- Reader(value, {"source", "total", "items"});
    var items :- ListField(fields, "items", ParseItem);
    var source :- EnumField(fields, "source", ItemSourceOf);
    var total :- IntField(fields, "total");
    Ok(InventoryPayload(source, total, items))
  }

  function ParseStarResult(value: Json): Parsed<StarResultPayload> {
    var fields :- Reader(value, {"itemId", "mode", "watchArmed"});
    var itemId :- TextField(fields, "itemId");
    var mode :- EnumField(fields, "mode", ModeOf);
    var watchArmed :- BooleanField(fields, "watchArmed");
    Ok(StarResultPayload(itemId, mode, watchArmed))
  }

  function ParseVersion(value: Json): Parsed<int> {
    if !value.JInt? then Err(ProtocolVersionInvalid)
    else if value.number > PROTOCOL_VERSION then Err(ProtocolVersionFuture)
    else if value.number != PROTOCOL_VERSION then Err(ProtocolVersionInvalid)
    else Ok(value.number)
  }

  datatype Kind = SnapshotKind | InventoryKind | StarResultKind | ErrorKind

  function KindOf(text: string): Option<Kind> {
    if text == "snapshot" then Some(SnapshotKind)
    else if text == "inventory" then Some(InventoryKind)
    else if text == "star-result" then Some(StarResultKind)
    else if text == "error" then Some(ErrorKind)
    else None
  }

  function Validated(r: Response): (checked: Parsed<Response>)
    ensures checked.Ok? ==> ValidateResponse(checked.value).None?
  {
    if ValidateResponse(r).Some? then Err(ValidateResponse(r).value) else Ok(r)
  }

  function ParsePayload(codec: TextCodec, envelope: Envelope, kind: Kind, content: Json): Parsed<Response> {
    match kind
    case SnapshotKind =>
      var payload :- ParseSnapshot(codec, content);
      Ok(SnapshotResponse(Snapshot(envelope, payload)))
    case InventoryKind =>
      var payload :- ParseInventory(content);
      Ok(InventoryResponse(Inventory(envelope, payload)))
    case StarResultKind =>
      var payload :- ParseStarResult(content);
      Ok(StarResultResponse(envelope, payload))
    case ErrorKind =>
      var error :- ParseError(content);
      Ok(ErrorResponse(envelope, error))
  }

  // The content of a response of a kind, which must not carry the other field.
  function ParseContent(codec: TextCodec, fields: map<string, Json>, envelope: Envelope, kind: Kind): Parsed<Response> {
    if (if kind.ErrorKind? then "payload" else "error") in fields then Err(InvalidEnvelope)
    else
      var content :- Field(fields, if kind.ErrorKind? then "error" else "payload");
      ParsePayload(codec, envelope, kind, content)
  }

  const RESPONSE_FIELDS: set<string> := {
    "protocolVersion", "kind", "generatedAt", "generationId", "payload", "error"}

  function ParseResponse(codec: TextCodec, value: Json): (r: Parsed<Response>)
    ensures r.Ok? ==> ValidateResponse(r.value).None?
  {
    var fields :- Reader(value, RESPONSE_FIELDS);
    if "protocolVersion" !in fields then Err(ProtocolVersionMissing)
    else
      var version :- ParseVersion(fields["protocolVersion"]);
      var generatedAt :- TimeField(codec, fields, "generatedAt");
      var generationId :- TextField(fields, "generationId");
      var kind :- EnumField(fields, "kind", KindOf);
      var r :- ParseContent(codec, fields, Envelope(generatedAt, generationId, version), kind);
      Validated(r)
  }
}
