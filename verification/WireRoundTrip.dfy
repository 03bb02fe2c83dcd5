// Printing a response and reading it back gives the same response.
module WireRoundTrip {
  import opened Wrappers
  import opened Records
  import opened Sorting
  import opened JsonTree
  import opened EnumText
  import opened ResponseValidation
  import opened Wire

  lemma TimeRead(codec: TextCodec, t: Instant)
    requires Faithful(codec)
    ensures Timestamp(codec, JString(codec.format(t))) == Ok(t)
  {
    assert Stamped(codec.format(t));
  }

  lemma ErrorInfoRead(error: ErrorInfo)
    requires ErrorCheck(error).None?
    ensures ParseError(ErrorValue(error)) == Ok(error)
  {
    ErrorRead(error.code);
    assert ErrorValue(error).fields.Keys <= {"code", "message"};
  }

  lemma CauseRead(cause: Option<ErrorInfo>)
    requires CauseCheck(cause).None?
    ensures ParseCause(CauseValue(cause)) == Ok(cause)
  {
    if cause.Some? {
      ErrorInfoRead(cause.value);
    }
  }

  lemma ScopeHealthRead(codec: TextCodec, scope: ScopeHealth)
    requires Faithful(codec) && ScopeCheck(scope).None?
    ensures ParseScope(codec, ScopeValue(codec, scope)) == Ok(scope)
  {
    CauseRead(scope.cause);
    TimeRead(codec, scope.observedAt);
    TimeRead(codec, scope.freshUntil);
    ScopeRead(scope.scope);
    StatusRead(scope.status);
    ProvenanceRead(scope.provenance);
  }

  lemma ScopesRead(codec: TextCodec, source: SourceHealth)
    requires Faithful(codec) && ScopesCheck(source).None?
    ensures ParseAll(ScopeReader(codec), PrintAll(ScopeWriter(codec), source.scopes)) == Ok(source.scopes)
  {
    forall scope | scope in source.scopes
      ensures ScopeReader(codec)(ScopeWriter(codec)(scope)) == Ok(scope)
    {
      ScopeHealthRead(codec, scope);
    }
    ParsePrinted(ScopeWriter(codec), ScopeReader(codec), source.scopes);
  }

  lemma SourceFromFields(codec: TextCodec, fields: map<string, Json>, source: SourceHealth)
    requires fields.Keys <= {"source", "status", "provenance", "observedAt", "freshUntil", "cause", "scopes"}
    requires Field(fields, "cause") == Ok(CauseValue(source.cause))
    requires ParseCause(CauseValue(source.cause)) == Ok(source.cause)
    requires (if "scopes" !in fields then Ok([]) else ListField(fields, "scopes", ScopeReader(codec))) == Ok(source.scopes)
    requires EnumField(fields, "source", SourceOf) == Ok(source.source)
    requires EnumField(fields, "status", StatusOf) == Ok(source.status)
    requires EnumField(fields, "provenance", ProvenanceOf) == Ok(source.provenance)
    requires TimeField(codec, fields, "observedAt") == Ok(source.observedAt)
    requires TimeField(codec, fields, "freshUntil") == Ok(source.freshUntil)
    ensures ParseSource(codec, JObject(fields)) == Ok(source)
  {
  }

  lemma SourceLookups(codec: TextCodec, source: SourceHealth)
    ensures var fields := SourceValue(codec, source).fields;
            && fields.Keys <= {"source", "status", "provenance", "observedAt", "freshUntil", "cause", "scopes"}
            && Field(fields, "cause") == Ok(CauseValue(source.cause))
            && ("scopes" in fields <==> source.scopes != [])
            && ("scopes" in fields ==> fields["scopes"] == JArray(PrintAll(ScopeWriter(codec), source.scopes)))
            && Field(fields, "source") == Ok(JString(SourceText(source.source)))
            && Field(fields, "status") == Ok(JString(StatusText(source.status)))
            && Field(fields, "provenance") == Ok(JString(ProvenanceText(source.provenance)))
            && Field(fields, "observedAt") == Ok(JString(codec.format(source.observedAt)))
            && Field(fields, "freshUntil") == Ok(JString(codec.format(source.freshUntil)))
  {
  }

  lemma SourceHealthRead(codec: TextCodec, source: SourceHealth)
    requires Faithful(codec) && SourceCheck(source).None?
    ensures ParseSource(codec, SourceValue(codec, source)) == Ok(source)
  {
    CheckedInOrder([CauseCheck(source.cause), ScopesCheck(source)], 0);
    CheckedInOrder([CauseCheck(source.cause), ScopesCheck(source)], 1);
    CauseRead(source.cause);
    ScopesRead(codec, source);
    TimeRead(codec, source.observedAt);
    TimeRead(codec, source.freshUntil);
    SourceRead(source.source);
    StatusRead(source.status);
    ProvenanceRead(source.provenance);
    SourceLookups(codec, source);
    SourceFromFields(codec, SourceValue(codec, source).fields, source);
  }

  lemma CheckedInOrder(checks: seq<Check>, i: nat)
    requires InOrder(checks).None? && i < |checks|
    ensures checks[i].None?
  {
  }

  lemma SummaryRead(summary: Summary)
    requires summary.totalUpdates >= 0 && summary.watchedUpdates >= 0
    requires summary.securityFindings >= 0 && summary.degradedSources >= 0
    ensures ParseSummary(SummaryValue(summary)) == Ok(summary)
  {
  }

  // Which values an item's fields hold.
  ghost predicate HoldsItem(fields: map<string, Json>, item: NormalizedItem) {
    && TextField(fields, "id") == Ok(item.itemId)
    && EnumField(fields, "source", ItemSourceOf) == Ok(item.source)
    && TextField(fields, "label") == Ok(item.itemLabel)
    && OptionalField(fields, "installed") == Ok(item.installed)
    && OptionalField(fields, "candidate") == Ok(item.candidate)
    && EnumField(fields, "watchMode", ModeOf) == Ok(item.watchMode)
    && BooleanField(fields, "watchable") == Ok(item.watchable)
    && EnumField(fields, "provenance", ProvenanceOf) == Ok(item.provenance)
    && BooleanField(fields, "watchArmed") == Ok(item.watchArmed)
  }

  lemma ItemKeys(item: NormalizedItem)
    ensures "installedFingerprint" !in ItemFields(item) && "candidateFingerprint" !in ItemFields(item)
    ensures ItemFields(item).Keys <= ITEM_FIELDS
  {
  }

  lemma ItemLookups(item: NormalizedItem)
    ensures var fields := ItemFields(item);
            && Field(fields, "id") == Ok(JString(item.itemId))
            && Field(fields, "source") == Ok(JString(ItemSourceText(item.source)))
            && Field(fields, "label") == Ok(JString(item.itemLabel))
            && Field(fields, "installed") == Ok(OptionalValue(item.installed))
            && Field(fields, "candidate") == Ok(OptionalValue(item.candidate))
            && Field(fields, "watchMode") == Ok(JString(ModeText(item.watchMode)))
            && Field(fields, "watchable") == Ok(JBool(item.watchable))
            && Field(fields, "provenance") == Ok(JString(ProvenanceText(item.provenance)))
            && Field(fields, "watchArmed") == Ok(JBool(item.watchArmed))
  {
  }

  lemma ItemTexts(item: NormalizedItem)
    ensures Enum(JString(ItemSourceText(item.source)), ItemSourceOf) == Ok(item.source)
    ensures Enum(JString(ModeText(item.watchMode)), ModeOf) == Ok(item.watchMode)
    ensures Enum(JString(ProvenanceText(item.provenance)), ProvenanceOf) == Ok(item.provenance)
  {
    ItemSourceRead(item.source);
    ModeRead(item.watchMode);
    ProvenanceRead(item.provenance);
  }

  lemma ItemFieldsHold(item: NormalizedItem)
    ensures HoldsItem(ItemFields(item), item)
  {
    ItemLookups(item);
    ItemTexts(item);
  }

  lemma IncludingHolds(fields: map<string, Json>, name: string, text: Option<string>, item: NormalizedItem)
    requires HoldsItem(fields, item) && name !in fields && fields.Keys <= ITEM_FIELDS
    requires name == "installedFingerprint" || name == "candidateFingerprint"
    ensures HoldsItem(Including(fields, name, text), item)
    ensures Including(fields, name, text).Keys <= ITEM_FIELDS
    ensures IfPresent(Including(fields, name, text), name) == Ok(text)
    ensures forall other :: other != name ==> (other in Including(fields, name, text) <==> other in fields)
    ensures forall other :: other != name ==> IfPresent(Including(fields, name, text), other) == IfPresent(fields, other)
  {
    var more := Including(fields, name, text);
    assert forall other :: other != name ==> Field(more, other) == Field(fields, other);
  }

  lemma ItemFromFields(fields: map<string, Json>, item: NormalizedItem)
    requires HoldsItem(fields, item) && fields.Keys <= ITEM_FIELDS
    requires IfPresent(fields, "installedFingerprint") == Ok(item.installedFingerprint)
    requires IfPresent(fields, "candidateFingerprint") == Ok(item.candidateFingerprint)
    ensures ParseItem(JObject(fields)) == Ok(item)
  {
  }

  lemma ItemRead(item: NormalizedItem)
    ensures ParseItem(ItemValue(item)) == Ok(item)
  {
    var fields := ItemFields(item);
    ItemKeys(item);
    ItemFieldsHold(item);
    IncludingHolds(fields, "installedFingerprint", item.installedFingerprint, item);
    var more := Including(fields, "installedFingerprint", item.installedFingerprint);
    IncludingHolds(more, "candidateFingerprint", item.candidateFingerprint, item);
    ItemFromFields(Including(more, "candidateFingerprint", item.candidateFingerprint), item);
  }

  ghost predicate HoldsFinding(fields: map<string, Json>, finding: SecurityFinding) {
    && ListField(fields, "cveIds", Text) == Ok(finding.cveIds)
    && TextField(fields, "id") == Ok(finding.findingId)
    && TextField(fields, "itemId") == Ok(finding.itemId)
    && TextField(fields, "advisoryId") == Ok(finding.advisoryId)
    && EnumField(fields, "severity", SeverityOf) == Ok(finding.severity)
    && OptionalField(fields, "fixedVersion") == Ok(finding.fixedVersion)
    && BooleanField(fields, "knownExploited") == Ok(finding.knownExploited)
    && EnumField(fields, "provenance", ProvenanceOf) == Ok(finding.provenance)
    && EnumField(fields, "status", ArchStatusOf) == Ok(finding.status)
    && TextField(fields, "type") == Ok(finding.advisoryType)
    && OptionalField(fields, "installedVersion") == Ok(finding.installedVersion)
    && EnumField(fields, "kevStatus", KevOf) == Ok(finding.kevStatus)
    && Field(fields, "kevProvenance") == Ok(KevProvenanceValue(finding.kevProvenance))
  }

  lemma FindingTexts(finding: SecurityFinding)
    ensures Enum(JString(SeverityText(finding.severity)), SeverityOf) == Ok(finding.severity)
    ensures Enum(JString(ProvenanceText(finding.provenance)), ProvenanceOf) == Ok(finding.provenance)
    ensures Enum(JString(ArchStatusText(finding.status)), ArchStatusOf) == Ok(finding.status)
    ensures Enum(JString(KevText(finding.kevStatus)), KevOf) == Ok(finding.kevStatus)
    ensures ParseKevProvenance(KevProvenanceValue(finding.kevProvenance)) == Ok(finding.kevProvenance)
  {
    SeverityRead(finding.severity);
    ProvenanceRead(finding.provenance);
    ArchStatusRead(finding.status);
    KevRead(finding.kevStatus);
    if finding.kevProvenance.Some? {
      ProvenanceRead(finding.kevProvenance.value);
    }
  }

  lemma FindingKeys(finding: SecurityFinding)
    ensures FindingValue(finding).fields.Keys == FINDING_FIELDS
  {
  }

  lemma FindingLookups(finding: SecurityFinding)
    ensures var fields := FindingValue(finding).fields;
            && Field(fields, "cveIds") == Ok(JArray(PrintAll(StringValue, finding.cveIds)))
            && Field(fields, "id") == Ok(JString(finding.findingId))
            && Field(fields, "itemId") == Ok(JString(finding.itemId))
            && Field(fields, "advisoryId") == Ok(JString(finding.advisoryId))
            && Field(fields, "severity") == Ok(JString(SeverityText(finding.severity)))
            && Field(fields, "fixedVersion") == Ok(OptionalValue(finding.fixedVersion))
            && Field(fields, "knownExploited") == Ok(JBool(finding.knownExploited))
  {
  }

  lemma FindingLookupsMore(finding: SecurityFinding)
    ensures var fields := FindingValue(finding).fields;
            && Field(fields, "provenance") == Ok(JString(ProvenanceText(finding.provenance)))
            && Field(fields, "status") == Ok(JString(ArchStatusText(finding.status)))
            && Field(fields, "type") == Ok(JString(finding.advisoryType))
            && Field(fields, "installedVersion") == Ok(OptionalValue(finding.installedVersion))
            && Field(fields, "kevStatus") == Ok(JString(KevText(finding.kevStatus)))
            && Field(fields, "kevProvenance") == Ok(KevProvenanceValue(finding.kevProvenance))
  {
  }

  lemma FindingFieldsHold(fields: map<string, Json>, finding: SecurityFinding)
    requires Field(fields, "cveIds") == Ok(JArray(PrintAll(StringValue, finding.cveIds)))
    requires Field(fields, "id") == Ok(JString(finding.findingId))
    requires Field(fields, "itemId") == Ok(JString(finding.itemId))
    requires Field(fields, "advisoryId") == Ok(JString(finding.advisoryId))
    requires Field(fields, "severity") == Ok(JString(SeverityText(finding.severity)))
    requires Field(fields, "fixedVersion") == Ok(OptionalValue(finding.fixedVersion))
    requires Field(fields, "knownExploited") == Ok(JBool(finding.knownExploited))
    requires Field(fields, "provenance") == Ok(JString(ProvenanceText(finding.provenance)))
    requires Field(fields, "status") == Ok(JString(ArchStatusText(finding.status)))
    requires Field(fields, "type") == Ok(JString(finding.advisoryType))
    requires Field(fields, "installedVersion") == Ok(OptionalValue(finding.installedVersion))
    requires Field(fields, "kevStatus") == Ok(JString(KevText(finding.kevStatus)))
    requires Field(fields, "kevProvenance") == Ok(KevProvenanceValue(finding.kevProvenance))
    ensures HoldsFinding(fields, finding)
  {
    FindingTexts(finding);
    ParsePrinted(StringValue, Text, finding.cveIds);
  }

  lemma FindingFromFields(fields: map<string, Json>, finding: SecurityFinding)
    requires HoldsFinding(fields, finding) && fields.Keys <= FINDING_FIELDS
    ensures ParseFinding(JObject(fields)) == Ok(finding)
  {
    FindingTexts(finding);
  }

  lemma FindingRead(finding: SecurityFinding)
    ensures ParseFinding(FindingValue(finding)) == Ok(finding)
  {
    FindingKeys(finding);
    FindingLookups(finding);
    FindingLookupsMore(finding);
    FindingFieldsHold(FindingValue(finding).fields, finding);
    FindingFromFields(FindingValue(finding).fields, finding);
  }

  lemma GroupRead(group: SecurityFindingGroup)
    ensures ParseGroup(GroupValue(group)) == Ok(group)
  {
    forall finding | finding in group.findings
      ensures ParseFinding(FindingValue(finding)) == Ok(finding)
    {
      FindingRead(finding);
    }
    ParsePrinted(FindingValue, ParseFinding, group.findings);
  }

  lemma NotificationOutcomeRead(outcome: NotificationOutcome)
    ensures ParseNotification(NotificationValue(outcome)) == Ok(outcome)
  {
    NotificationRead(outcome.status);
  }

  // Payloads

  lemma ItemsRead(items: seq<NormalizedItem>)
    ensures ParseAll(ParseItem, PrintAll(ItemValue, items)) == Ok(items)
  {
    forall item | item in items
      ensures ParseItem(ItemValue(item)) == Ok(item)
    {
      ItemRead(item);
    }
    ParsePrinted(ItemValue, ParseItem, items);
  }

  lemma GroupsRead(groups: seq<SecurityFindingGroup>)
    ensures ParseAll(ParseGroup, PrintAll(GroupValue, groups)) == Ok(groups)
  {
    forall group | group in groups
      ensures ParseGroup(GroupValue(group)) == Ok(group)
    {
      GroupRead(group);
    }
    ParsePrinted(GroupValue, ParseGroup, groups);
  }

  lemma NotificationsRead(outcomes: seq<NotificationOutcome>)
    ensures ParseAll(ParseNotification, PrintAll(NotificationValue, outcomes)) == Ok(outcomes)
  {
    forall outcome | outcome in outcomes
      ensures ParseNotification(NotificationValue(outcome)) == Ok(outcome)
    {
      NotificationOutcomeRead(outcome);
    }
    ParsePrinted(NotificationValue, ParseNotification, outcomes);
  }

  lemma SourcesRead(codec: TextCodec, sources: seq<SourceHealth>)
    requires Faithful(codec) && SourcesCheck(sources).None?
    ensures ParseAll(SourceReader(codec), PrintAll(SourceWriter(codec), sources)) == Ok(sources)
  {
    forall source | source in sources
      ensures SourceReader(codec)(SourceWriter(codec)(source)) == Ok(source)
    {
      SourceHealthRead(codec, source);
    }
    ParsePrinted(SourceWriter(codec), SourceReader(codec), sources);
  }

  lemma ListRead<T>(fields: map<string, Json>, name: string, values: seq<Json>, read: Json -> Parsed<T>, xs: seq<T>)
    requires Field(fields, name) == Ok(JArray(values)) && ParseAll(read, values) == Ok(xs)
    ensures ListField(fields, name, read) == Ok(xs)
  {
  }

  lemma SnapshotLookups(codec: TextCodec, payload: SnapshotPayload)
    ensures var fields := SnapshotValue(codec, payload).fields;
            && fields.Keys == {"scanState", "sources", "summary", "items", "findings", "notifications"}
            && Field(fields, "findings") == Ok(JArray(PrintAll(GroupValue, payload.findings)))
            && Field(fields, "items") == Ok(JArray(PrintAll(ItemValue, payload.items)))
            && Field(fields, "notifications") == Ok(JArray(PrintAll(NotificationValue, payload.notifications)))
            && Field(fields, "scanState") == Ok(JString(ScanStateText(payload.scanState)))
            && Field(fields, "sources") == Ok(JArray(PrintAll(SourceWriter(codec), payload.sources)))
            && Field(fields, "summary") == Ok(SummaryValue(payload.summary))
  {
  }

  lemma SnapshotChecks(payload: SnapshotPayload)
    requires SnapshotCheck(payload).None?
    ensures SourcesCheck(payload.sources).None?
    ensures payload.summary.totalUpdates >= 0 && payload.summary.watchedUpdates >= 0
    ensures payload.summary.securityFindings >= 0 && payload.summary.degradedSources >= 0
  {
    var checks := [
      SourcesCheck(payload.sources), ItemsCheck(payload.items), GroupsCheck(payload.findings, payload.items),
      Nonnegative(payload.summary.totalUpdates), Nonnegative(payload.summary.watchedUpdates),
      Nonnegative(payload.summary.securityFindings), Nonnegative(payload.summary.degradedSources)];
    assert InOrder(checks).None?;
    assert checks[0].None? && checks[3].None? && checks[4].None? && checks[5].None? && checks[6].None?;
  }

  lemma SnapshotFromFields(codec: TextCodec, fields: map<string, Json>, payload: SnapshotPayload)
    requires fields.Keys == {"scanState", "sources", "summary", "items", "findings", "notifications"}
    requires ListField(fields, "findings", ParseGroup) == Ok(payload.findings)
    requires ListField(fields, "items", ParseItem) == Ok(payload.items)
    requires ListField(fields, "notifications", ParseNotification) == Ok(payload.notifications)
    requires EnumField(fields, "scanState", EnumText.ScanStateOf) == Ok(payload.scanState)
    requires ListField(fields, "sources", SourceReader(codec)) == Ok(payload.sources)
    requires Field(fields, "summary") == Ok(SummaryValue(payload.summary))
    requires ParseSummary(SummaryValue(payload.summary)) == Ok(payload.summary)
    ensures ParseSnapshot(codec, JObject(fields)) == Ok(payload)
  {
  }

  lemma SnapshotRead(codec: TextCodec, payload: SnapshotPayload)
    requires Faithful(codec) && SnapshotCheck(payload).None?
    ensures ParseSnapshot(codec, SnapshotValue(codec, payload)) == Ok(payload)
  {
    var fields := SnapshotValue(codec, payload).fields;
    SnapshotLookups(codec, payload);
    SnapshotChecks(payload);
    ItemsRead(payload.items);
    GroupsRead(payload.findings);
    NotificationsRead(payload.notifications);
    SourcesRead(codec, payload.sources);
    ListRead(fields, "items", PrintAll(ItemValue, payload.items), ParseItem, payload.items);
    ListRead(fields, "findings", PrintAll(GroupValue, payload.findings), ParseGroup, payload.findings);
    ListRead(fields, "notifications", PrintAll(NotificationValue, payload.notifications), ParseNotification,
             payload.notifications);
    ListRead(fields, "sources", PrintAll(SourceWriter(codec), payload.sources), SourceReader(codec), payload.sources);
    ScanStateRead(payload.scanState);
    SummaryRead(payload.summary);
    SnapshotFromFields(codec, fields, payload);
  }

  lemma InventoryRead(payload: InventoryPayload)
    requires payload.total >= 0
    ensures ParseInventory(InventoryValue(payload)) == Ok(payload)
  {
    var fields := InventoryValue(payload).fields;
    ItemsRead(payload.items);
    ListRead(fields, "items", PrintAll(ItemValue, payload.items), ParseItem, payload.items);
    ItemSourceRead(payload.source);
  }

  lemma StarResultRead(payload: StarResultPayload)
    ensures ParseStarResult(StarResultValue(payload)) == Ok(payload)
  {
    ModeRead(payload.mode);
  }

  // Envelopes

  function KindText(kind: Kind): string {
    match kind
    case SnapshotKind => "snapshot"
    case InventoryKind => "inventory"
    case StarResultKind => "star-result"
    case ErrorKind => "error"
  }

  function ContentName(kind: Kind): string {
    if kind.ErrorKind? then "error" else "payload"
  }

  lemma EnvelopeLookups(codec: TextCodec, envelope: Envelope, kind: Kind, content: Json)
    ensures var fields := EnvelopeFields(codec, envelope, KindText(kind), ContentName(kind), content);
            && fields.Keys == {"generatedAt", "generationId", "kind", ContentName(kind), "protocolVersion"}
            && fields.Keys <= RESPONSE_FIELDS && OtherName(kind) !in fields
            && Field(fields, "generatedAt") == Ok(JString(codec.format(envelope.generatedAt)))
            && Field(fields, "generationId") == Ok(JString(envelope.generationId))
            && Field(fields, "kind") == Ok(JString(KindText(kind)))
            && Field(fields, ContentName(kind)) == Ok(content)
            && Field(fields, "protocolVersion") == Ok(JInt(envelope.protocolVersion))
  {
  }

  // The fields of a response whose content is read as a given response.
  ghost predicate HoldsResponse(codec: TextCodec, fields: map<string, Json>, envelope: Envelope, kind: Kind) {
    && fields.Keys <= RESPONSE_FIELDS
    && Field(fields, "protocolVersion") == Ok(JInt(envelope.protocolVersion))
    && TimeField(codec, fields, "generatedAt") == Ok(envelope.generatedAt)
    && TextField(fields, "generationId") == Ok(envelope.generationId)
    && EnumField(fields, "kind", KindOf) == Ok(kind)
  }

  lemma EnvelopeHolds(codec: TextCodec, envelope: Envelope, kind: Kind, content: Json)
    requires Faithful(codec)
    ensures HoldsResponse(codec, EnvelopeFields(codec, envelope, KindText(kind), ContentName(kind), content), envelope, kind)
  {
    EnvelopeLookups(codec, envelope, kind, content);
    TimeRead(codec, envelope.generatedAt);
    assert KindOf(KindText(kind)) == Some(kind);
  }

  lemma ResponseFromFields(codec: TextCodec, fields: map<string, Json>, envelope: Envelope, kind: Kind, r: Response)
    requires HoldsResponse(codec, fields, envelope, kind) && envelope.protocolVersion == PROTOCOL_VERSION
    requires ParseContent(codec, fields, envelope, kind) == Ok(r) && ValidateResponse(r).None?
    ensures ParseResponse(codec, JObject(fields)) == Ok(r)
  {
  }

  lemma EnvelopeRead(codec: TextCodec, envelope: Envelope, kind: Kind, content: Json, r: Response)
    requires Faithful(codec) && envelope.protocolVersion == PROTOCOL_VERSION && ValidateResponse(r).None?
    requires ParsePayload(codec, envelope, kind, content) == Ok(r)
    ensures ParseResponse(codec, EnvelopeValue(codec, envelope, KindText(kind), ContentName(kind), content)) == Ok(r)
  {
    var fields := EnvelopeFields(codec, envelope, KindText(kind), ContentName(kind), content);
    EnvelopeLookups(codec, envelope, kind, content);
    ContentOfFields(codec, fields, envelope, kind, content);
    EnvelopeHolds(codec, envelope, kind, content);
    ResponseFromFields(codec, fields, envelope, kind, r);
  }

  lemma ContentOfFields(codec: TextCodec, fields: map<string, Json>, envelope: Envelope, kind: Kind, content: Json)
    requires Field(fields, ContentName(kind)) == Ok(content) && OtherName(kind) !in fields
    ensures ParseContent(codec, fields, envelope, kind) == ParsePayload(codec, envelope, kind, content)
  {
  }

  function OtherName(kind: Kind): string {
    if kind.ErrorKind? then "payload" else "error"
  }

  lemma ValidChecks(r: Response)
    requires ValidateResponse(r).None?
    ensures EnvelopeOf(r).protocolVersion == PROTOCOL_VERSION && PayloadCheck(r).None?
    ensures r.InventoryResponse? ==> r.inventory.payload.total >= 0
  {
    CheckedInOrder([MetadataCheck(EnvelopeOf(r)), PayloadCheck(r)], 0);
    CheckedInOrder([MetadataCheck(EnvelopeOf(r)), PayloadCheck(r)], 1);
    MetadataChecks(EnvelopeOf(r));
    if r.InventoryResponse? {
      InventoryChecks(r.inventory.payload);
    }
  }

  lemma MetadataChecks(envelope: Envelope)
    requires MetadataCheck(envelope).None?
    ensures envelope.protocolVersion == PROTOCOL_VERSION
  {
    CheckedInOrder([Require(envelope.protocolVersion <= PROTOCOL_VERSION, ProtocolVersionFuture),
                    Require(envelope.protocolVersion == PROTOCOL_VERSION, ProtocolVersionInvalid),
                    Identifier(envelope.generationId)], 1);
  }

  lemma InventoryChecks(payload: InventoryPayload)
    requires InventoryCheck(payload).None?
    ensures payload.total >= 0
  {
    var checks := [
      Require(!payload.source.Omarchy?, InvalidEnvelope), Nonnegative(payload.total),
      Require(payload.total >= |payload.items|, InvalidEnvelope), ItemsCheck(payload.items),
      Require(forall item :: item in payload.items ==> item.source == payload.source, InvalidEnvelope)];
    CheckedInOrder(checks, 1);
  }

  // A response is printed exactly when it is valid, and what is printed reads back
  // as the same response, whatever its kind.
  lemma ResponseRoundTrip(codec: TextCodec, r: Response)
    requires Faithful(codec)
    ensures ResponseValue(codec, r).Ok? <==> ValidateResponse(r).None?
    ensures ResponseValue(codec, r).Ok? ==> ParseResponse(codec, ResponseValue(codec, r).value) == Ok(r)
  {
    if ValidateResponse(r).None? {
      ValidChecks(r);
      match r {
        case SnapshotResponse(s) =>
          SnapshotRead(codec, s.payload);
          EnvelopeRead(codec, s.envelope, SnapshotKind, SnapshotValue(codec, s.payload), r);
        case InventoryResponse(i) =>
          InventoryRead(i.payload);
          EnvelopeRead(codec, i.envelope, InventoryKind, InventoryValue(i.payload), r);
        case StarResultResponse(envelope, star) =>
          StarResultRead(star);
          EnvelopeRead(codec, envelope, StarResultKind, StarResultValue(star), r);
        case ErrorResponse(envelope, error) =>
          ErrorInfoRead(error);
          EnvelopeRead(codec, envelope, ErrorKind, ErrorValue(error), r);
      }
    }
  }

  // Any value that is accepted gives a valid response, and printing that response
  // gives a value that reads as the same response.
  lemma AcceptedReprints(codec: TextCodec, value: Json)
    requires Faithful(codec) && ParseResponse(codec, value).Ok?
    ensures var r := ParseResponse(codec, value).value;
            && ResponseValue(codec, r).Ok?
            && ParseResponse(codec, ResponseValue(codec, r).value) == Ok(r)
  {
    ResponseRoundTrip(codec, ParseResponse(codec, value).value);
  }
}
