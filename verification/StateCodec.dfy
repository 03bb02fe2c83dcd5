// The persistent state as a JSON document: writing schema version 2, and reading
// versions 0, 1 and 2.
module StateCodec {
  import opened Wrappers
  import opened Records
  import opened Sorting
  import opened LedgerPruning
  import opened StateValidation
  import opened JsonTree
  import opened EnumText

  const STATE_SCHEMA_VERSION := 2

  datatype StateError = Corrupt | Incompatible(version: int)

  type Read<T> = Result<T, StateError>

  // Field readers

  function Field(fields: map<string, Json>, name: string): Read<Json> {
    if name in fields then Ok(fields[name]) else Err(Corrupt)
  }

  function Fields(value: Json): Read<map<string, Json>> {
    if value.JObject? then Ok(value.fields) else Err(Corrupt)
  }

  function Items(value: Json): Read<seq<Json>> {
    if value.JArray? then Ok(value.items) else Err(Corrupt)
  }

  function Text(value: Json): Read<string> {
    if value.JString? then Ok(value.text) else Err(Corrupt)
  }

  function Integer(value: Json): Read<int> {
    if value.JInt? then Ok(value.number) else Err(Corrupt)
  }

  function Boolean(value: Json): Read<bool> {
    if value.JBool? then Ok(value.flag) else Err(Corrupt)
  }

  function OptionalText(value: Json): Read<Option<string>> {
    if value.JNull? then Ok(None)
    else
      var text :- Text(value);
      Ok(Some(text))
  }

  function Timestamp(codec: TextCodec, value: Json): Read<Instant> {
    var raw :- Text(value);
    if raw == "" || raw[|raw| - 1] != 'Z' then Err(Corrupt)
    else if codec.fromIso(WithOffset(raw)).None? then Err(Corrupt)
    else Ok(codec.fromIso(WithOffset(raw)).value)
  }

  function OptionalTimestamp(codec: TextCodec, value: Json): Read<Option<Instant>> {
    if value.JNull? then Ok(None)
    else
      var t :- Timestamp(codec, value);
      Ok(Some(t))
  }

  function Known<T>(found: Option<T>): Read<T> {
    if found.None? then Err(Corrupt) else Ok(found.value)
  }

  // Printing

  function OptionalString(text: Option<string>): Json {
    if text.None? then JNull else JString(text.value)
  }

  function OptionalInstant(codec: TextCodec, t: Option<Instant>): Json {
    if t.None? then JNull else JString(codec.format(t.value))
  }

  function StringValue(text: string): Json {
    JString(text)
  }

  function ConditionValue(condition: Option<SecurityFixCondition>): Json {
    match condition
    case None => JNull
    case Some(c) =>
      JObject(map["advisoryId" := JString(c.advisoryId),
                  "cveIds" := JArray(PrintAll(StringValue, c.cveIds)),
                  "fixedVersion" := JString(c.fixedVersion)])
  }

  function WatchValue(w: WatchRecord): Json {
    JObject(map["itemId" := JString(w.itemId),
                "mode" := JString(ModeText(w.mode)),
                "installedFingerprint" := OptionalString(w.installedFingerprint),
                "candidateFingerprint" := OptionalString(w.candidateFingerprint),
                "armed" := JBool(w.armed),
                "condition" := ConditionValue(w.condition)])
  }

  function LedgerValue(codec: TextCodec, e: LedgerEntry): Json {
    JObject(map["fingerprint" := JString(e.fingerprint),
                "status" := JString(NotificationText(e.status)),
                "recordedAt" := JString(codec.format(e.recordedAt)),
                "leaseToken" := OptionalString(e.leaseToken),
                "leaseExpiresAt" := OptionalInstant(codec, e.leaseExpiresAt)])
  }

  function LedgerWriter(codec: TextCodec): LedgerEntry -> Json {
    (e: LedgerEntry) => LedgerValue(codec, e)
  }

  function MetadataValue(codec: TextCodec, m: SourceMetadata): Json {
    JObject(map["source" := JString(SourceText(m.source)),
                "lastSuccess" := OptionalInstant(codec, m.lastSuccess),
                "backoffUntil" := OptionalInstant(codec, m.backoffUntil),
                "failureCount" := JInt(m.failureCount),
                "permanentFailure" := JBool(m.permanentFailure)])
  }

  function MetadataWriter(codec: TextCodec): SourceMetadata -> Json {
    (m: SourceMetadata) => MetadataValue(codec, m)
  }

  function StateDocument(codec: TextCodec, s: PersistentState): Json {
    JObject(map["schemaVersion" := JInt(STATE_SCHEMA_VERSION),
                "watches" := JArray(PrintAll(WatchValue, s.watches)),
                "ledger" := JArray(PrintAll(LedgerWriter(codec), s.ledger)),
                "sources" := JArray(PrintAll(MetadataWriter(codec), s.sources))])
  }

  function EncodeState(codec: TextCodec, s: PersistentState, now: Instant): Read<Json> {
    if !ValidState(s) then Err(Corrupt) else Ok(StateDocument(codec, PruneLedger(s, now)))
  }

  // Reading

  function ParseCondition(value: Json): Read<Option<SecurityFixCondition>> {
    if value.JNull? then Ok(None)
    else
      var fields :- Fields(value);
      if fields.Keys != {"advisoryId", "cveIds", "fixedVersion"} then Err(Corrupt)
      else
        var advisoryId :- Text(fields["advisoryId"]);
        var values :- Items(fields["cveIds"]);
        var cveIds :- ParseAll(Text, values);
        var fixedVersion :- Text(fields["fixedVersion"]);
        var condition := SecurityFixCondition(advisoryId, cveIds, fixedVersion);
        if ValidCondition(condition) then Ok(Some(condition)) else Err(Corrupt)
  }

  function ParseUnconditional(fields: map<string, Json>): Read<WatchRecord> {
    var itemValue :- Field(fields, "itemId");
    var itemId :- Text(itemValue);
    var modeValue :- Field(fields, "mode");
    var modeText :- Text(modeValue);
    var mode :- Known(ModeOf(modeText));
    var installedValue :- Field(fields, "installedFingerprint");
    var installed :- OptionalText(installedValue);
    var candidateValue :- Field(fields, "candidateFingerprint");
    var candidate :- OptionalText(candidateValue);
    var armedValue :- Field(fields, "armed");
    var armed :- Boolean(armedValue);
    Ok(WatchRecord(itemId, mode, installed, candidate, armed, None))
  }

  function ParseWatch(value: Json): Read<WatchRecord> {
    var fields :- Fields(value);
    var conditionValue :- Field(fields, "condition");
    var condition :- ParseCondition(conditionValue);
    var watch :- ParseUnconditional(fields);
    Ok(watch.(condition := condition))
  }

  function ParseV1Watch(value: Json): Read<WatchRecord> {
    var fields :- Fields(value);
    ParseUnconditional(fields)
  }

  function ParseV0Watch(value: Json): Read<WatchRecord> {
    var fields :- Fields(value);
    var itemValue :- Field(fields, "itemId");
    var itemId :- Text(itemValue);
    var modeValue :- Field(fields, "mode");
    var modeText :- Text(modeValue);
    var mode :- Known(ModeOf(modeText));
    if mode.Off? then Err(Corrupt) else Ok(PermanentWatch(itemId))
  }

  function ParseLedger(codec: TextCodec, value: Json): Read<LedgerEntry> {
    var fields :- Fields(value);
    var token :- (if "leaseToken" !in fields then Ok(None) else OptionalText(fields["leaseToken"]));
    var expires :- (if "leaseExpiresAt" !in fields then Ok(None) else OptionalTimestamp(codec, fields["leaseExpiresAt"]));
    var fingerprintValue :- Field(fields, "fingerprint");
    var fingerprint :- Text(fingerprintValue);
    var statusValue :- Field(fields, "status");
    var statusText :- Text(statusValue);
    var status :- Known(NotificationOf(statusText));
    var recordedValue :- Field(fields, "recordedAt");
    var recordedAt :- Timestamp(codec, recordedValue);
    Ok(LedgerEntry(fingerprint, status, recordedAt, token, expires))
  }

  function LedgerReader(codec: TextCodec): Json -> Read<LedgerEntry> {
    (value: Json) => ParseLedger(codec, value)
  }

  function FailureCount(fields: map<string, Json>): Read<int> {
    if "failureCount" !in fields then Ok(0)
    else
      var count :- Integer(fields["failureCount"]);
      if count < 0 then Err(Corrupt) else Ok(count)
  }

  function PermanentFailure(fields: map<string, Json>): Read<bool> {
    if "permanentFailure" !in fields then Ok(false) else Boolean(fields["permanentFailure"])
  }

  function ParseMetadata(codec: TextCodec, value: Json): Read<SourceMetadata> {
    var fields :- Fields(value);
    var sourceValue :- Field(fields, "source");
    var sourceText :- Text(sourceValue);
    var source :- Known(SourceOf(sourceText));
    var successValue :- Field(fields, "lastSuccess");
    var lastSuccess :- OptionalTimestamp(codec, successValue);
    var backoffValue :- Field(fields, "backoffUntil");
    var backoffUntil :- OptionalTimestamp(codec, backoffValue);
    var count :- FailureCount(fields);
    var permanent :- PermanentFailure(fields);
    Ok(SourceMetadata(source, lastSuccess, backoffUntil, count, permanent))
  }

  // Metadata written before failures were counted reads as metadata without any.
  lemma MetadataDefaults(codec: TextCodec, fields: map<string, Json>)
    requires "failureCount" !in fields && "permanentFailure" !in fields
    ensures ParseMetadata(codec, JObject(fields)) ==
            ParseMetadata(codec, JObject(fields["failureCount" := JInt(0)]["permanentFailure" := JBool(false)]))
  {
    var full := fields["failureCount" := JInt(0)]["permanentFailure" := JBool(false)];
    assert Field(full, "source") == Field(fields, "source");
    assert Field(full, "lastSuccess") == Field(fields, "lastSuccess");
    assert Field(full, "backoffUntil") == Field(fields, "backoffUntil");
  }

  function MetadataReader(codec: TextCodec): Json -> Read<SourceMetadata> {
    (value: Json) => ParseMetadata(codec, value)
  }

  function Validated(s: PersistentState): Read<PersistentState> {
    if ValidState(s) then Ok(s) else Err(Corrupt)
  }

  function ParseList<T>(fields: map<string, Json>, name: string, read: Json -> Read<T>): Read<seq<T>> {
    var value :- Field(fields, name);
    var values :- Items(value);
    ParseAll(read, values)
  }

  function ParseDocument(codec: TextCodec, fields: map<string, Json>,
                         readWatch: Json -> Read<WatchRecord>): Read<PersistentState> {
    var watches :- ParseList(fields, "watches", readWatch);
    var ledger :- ParseList(fields, "ledger", LedgerReader(codec));
    var sources :- ParseList(fields, "sources", MetadataReader(codec));
    Validated(PersistentState(watches, ledger, sources))
  }

  function MigrateV0(fields: map<string, Json>): Read<PersistentState> {
    var watches :- ParseList(fields, "watches", ParseV0Watch);
    Validated(PersistentState(watches, [], []))
  }

  function DecodeState(codec: TextCodec, value: Json): Read<PersistentState> {
    var fields :- Fields(value);
    var versionValue :- Field(fields, "schemaVersion");
    var version :- Integer(versionValue);
    if version > STATE_SCHEMA_VERSION then Err(Incompatible(version))
    else if version == 0 then MigrateV0(fields)
    else if version == 1 then ParseDocument(codec, fields, ParseV1Watch)
    else if version != STATE_SCHEMA_VERSION then Err(Corrupt)
    else ParseDocument(codec, fields, ParseWatch)
  }

  // Round trip

  lemma ConditionRead(condition: Option<SecurityFixCondition>)
    requires condition.Some? ==> ValidCondition(condition.value)
    ensures ParseCondition(ConditionValue(condition)) == Ok(condition)
  {
    if condition.Some? {
      var fields := ConditionValue(condition).fields;
      assert fields.Keys == {"advisoryId", "cveIds", "fixedVersion"};
      assert fields["cveIds"] == JArray(PrintAll(StringValue, condition.value.cveIds));
      ParsePrinted(StringValue, Text, condition.value.cveIds);
    }
  }

  lemma WatchRead(w: WatchRecord)
    requires ValidWatch(w)
    ensures ParseWatch(WatchValue(w)) == Ok(w)
  {
    ConditionRead(w.condition);
    ModeRead(w.mode);
  }

  lemma InstantRead(codec: TextCodec, t: Instant)
    requires Faithful(codec)
    ensures Timestamp(codec, JString(codec.format(t))) == Ok(t)
  {
    assert Stamped(codec.format(t));
  }

  lemma OptionalInstantRead(codec: TextCodec, t: Option<Instant>)
    requires Faithful(codec)
    ensures OptionalTimestamp(codec, OptionalInstant(codec, t)) == Ok(t)
  {
    if t.Some? {
      InstantRead(codec, t.value);
    }
  }

  lemma LedgerRead(codec: TextCodec, e: LedgerEntry)
    requires Faithful(codec)
    ensures ParseLedger(codec, LedgerValue(codec, e)) == Ok(e)
  {
    InstantRead(codec, e.recordedAt);
    OptionalInstantRead(codec, e.leaseExpiresAt);
    NotificationRead(e.status);
  }

  lemma MetadataRead(codec: TextCodec, m: SourceMetadata)
    requires Faithful(codec) && m.failureCount >= 0
    ensures ParseMetadata(codec, MetadataValue(codec, m)) == Ok(m)
  {
    OptionalInstantRead(codec, m.lastSuccess);
    OptionalInstantRead(codec, m.backoffUntil);
    SourceRead(m.source);
  }

  lemma ListsRead(codec: TextCodec, s: PersistentState)
    requires Faithful(codec) && ValidState(s)
    ensures ParseAll(ParseWatch, PrintAll(WatchValue, s.watches)) == Ok(s.watches)
    ensures ParseAll(LedgerReader(codec), PrintAll(LedgerWriter(codec), s.ledger)) == Ok(s.ledger)
    ensures ParseAll(MetadataReader(codec), PrintAll(MetadataWriter(codec), s.sources)) == Ok(s.sources)
  {
    forall w | w in s.watches
      ensures ParseWatch(WatchValue(w)) == Ok(w)
    {
      WatchRead(w);
    }
    ParsePrinted(WatchValue, ParseWatch, s.watches);
    forall e | e in s.ledger
      ensures LedgerReader(codec)(LedgerWriter(codec)(e)) == Ok(e)
    {
      LedgerRead(codec, e);
    }
    ParsePrinted(LedgerWriter(codec), LedgerReader(codec), s.ledger);
    forall m | m in s.sources
      ensures MetadataReader(codec)(MetadataWriter(codec)(m)) == Ok(m)
    {
      MetadataRead(codec, m);
    }
    ParsePrinted(MetadataWriter(codec), MetadataReader(codec), s.sources);
  }

  lemma ListRead<T>(fields: map<string, Json>, name: string, values: seq<Json>, read: Json -> Read<T>, xs: seq<T>)
    requires name in fields && fields[name] == JArray(values) && ParseAll(read, values) == Ok(xs)
    ensures ParseList(fields, name, read) == Ok(xs)
  {
  }

  lemma DocumentFields(codec: TextCodec, s: PersistentState)
    ensures var fields := StateDocument(codec, s).fields;
            && "schemaVersion" in fields && fields["schemaVersion"] == JInt(STATE_SCHEMA_VERSION)
            && "watches" in fields && fields["watches"] == JArray(PrintAll(WatchValue, s.watches))
            && "ledger" in fields && fields["ledger"] == JArray(PrintAll(LedgerWriter(codec), s.ledger))
            && "sources" in fields && fields["sources"] == JArray(PrintAll(MetadataWriter(codec), s.sources))
  {
  }

  lemma FieldsRead(codec: TextCodec, s: PersistentState, fields: map<string, Json>)
    requires Faithful(codec) && ValidState(s)
    requires "watches" in fields && fields["watches"] == JArray(PrintAll(WatchValue, s.watches))
    requires "ledger" in fields && fields["ledger"] == JArray(PrintAll(LedgerWriter(codec), s.ledger))
    requires "sources" in fields && fields["sources"] == JArray(PrintAll(MetadataWriter(codec), s.sources))
    ensures ParseDocument(codec, fields, ParseWatch) == Ok(s)
  {
    ListsRead(codec, s);
    ListRead(fields, "watches", PrintAll(WatchValue, s.watches), ParseWatch, s.watches);
    ListRead(fields, "ledger", PrintAll(LedgerWriter(codec), s.ledger), LedgerReader(codec), s.ledger);
    ListRead(fields, "sources", PrintAll(MetadataWriter(codec), s.sources), MetadataReader(codec), s.sources);
  }

  lemma DocumentRead(codec: TextCodec, s: PersistentState)
    requires Faithful(codec) && ValidState(s)
    ensures DecodeState(codec, StateDocument(codec, s)) == Ok(s)
  {
    DocumentFields(codec, s);
    FieldsRead(codec, s, StateDocument(codec, s).fields);
  }

  // Every valid state is written, and reads back as that state pruned at the time of writing.
  lemma StateRoundTrip(codec: TextCodec, s: PersistentState, now: Instant)
    requires Faithful(codec)
    ensures EncodeState(codec, s, now).Ok? <==> ValidState(s)
    ensures ValidState(s) ==>
              DecodeState(codec, EncodeState(codec, s, now).value) == Ok(PruneLedger(s, now))
  {
    if ValidState(s) {
      PruneKeepsValid(s, now);
      DocumentRead(codec, PruneLedger(s, now));
    }
  }

  // Whatever document is accepted, the state it gives may be written again.
  lemma DecodedIsValid(codec: TextCodec, value: Json)
    ensures DecodeState(codec, value).Ok? ==> ValidState(DecodeState(codec, value).value)
  {
  }

  // Migration from version 1

  function WithNullCondition(value: Json): Json {
    if value.JObject? then JObject(value.fields["condition" := JNull]) else value
  }

  // A version 1 document rewritten as a version 2 document whose watches have no condition.
  function Upgraded(fields: map<string, Json>): map<string, Json> {
    var current := fields["schemaVersion" := JInt(STATE_SCHEMA_VERSION)];
    if "watches" in fields && fields["watches"].JArray?
    then current["watches" := JArray(Map(WithNullCondition, fields["watches"].items))]
    else current
  }

  lemma V1WatchIsUnconditional(value: Json)
    ensures ParseV1Watch(value) == ParseWatch(WithNullCondition(value))
  {
    if value.JObject? {
      var fields := value.fields["condition" := JNull];
      assert ParseCondition(fields["condition"]) == Ok(None);
      SameWatchFields(value.fields, fields);
    }
  }

  lemma SameWatchFields(a: map<string, Json>, b: map<string, Json>)
    requires forall name :: name != "condition" ==> Field(a, name) == Field(b, name)
    ensures ParseUnconditional(a) == ParseUnconditional(b)
  {
    assert Field(a, "itemId") == Field(b, "itemId") && Field(a, "mode") == Field(b, "mode");
    assert Field(a, "installedFingerprint") == Field(b, "installedFingerprint");
    assert Field(a, "candidateFingerprint") == Field(b, "candidateFingerprint");
    assert Field(a, "armed") == Field(b, "armed");
  }

  lemma V1WatchesRead(values: seq<Json>)
    ensures ParseAll(ParseWatch, Map(WithNullCondition, values)) == ParseAll(ParseV1Watch, values)
  {
    var same := (w: WatchRecord) => w;
    forall v | v in values
      ensures ParseWatch(WithNullCondition(v)) ==
              match ParseV1Watch(v) case Ok(w) => Ok(same(w)) case Err(e) => Err(e)
    {
      V1WatchIsUnconditional(v);
    }
    ParseMapped(ParseV1Watch, ParseWatch, WithNullCondition, same, values);
    if ParseAll(ParseV1Watch, values).Ok? {
      var watches := ParseAll(ParseV1Watch, values).value;
      assert Map(same, watches) == watches;
    }
  }

  lemma SameLists(codec: TextCodec, a: map<string, Json>, b: map<string, Json>)
    requires Field(a, "ledger") == Field(b, "ledger") && Field(a, "sources") == Field(b, "sources")
    requires ParseList(a, "watches", ParseV1Watch) == ParseList(b, "watches", ParseWatch)
    ensures ParseDocument(codec, a, ParseV1Watch) == ParseDocument(codec, b, ParseWatch)
  {
  }

  // Every version 1 document, good or bad, reads as its upgrade does.
  lemma V1ReadsAsUpgraded(codec: TextCodec, fields: map<string, Json>)
    requires Field(fields, "schemaVersion") == Ok(JInt(1))
    ensures DecodeState(codec, JObject(fields)) == DecodeState(codec, JObject(Upgraded(fields)))
  {
    var upgraded := Upgraded(fields);
    if "watches" in fields && fields["watches"].JArray? {
      V1WatchesRead(fields["watches"].items);
      assert upgraded["watches"] == JArray(Map(WithNullCondition, fields["watches"].items));
    } else {
      assert Field(upgraded, "watches") == Field(fields, "watches");
    }
    assert ParseList(fields, "watches", ParseV1Watch) == ParseList(upgraded, "watches", ParseWatch);
    assert Field(upgraded, "ledger") == Field(fields, "ledger");
    assert Field(upgraded, "sources") == Field(fields, "sources");
    SameLists(codec, fields, upgraded);
    assert upgraded["schemaVersion"] == JInt(STATE_SCHEMA_VERSION);
  }

  const Unconditional: WatchRecord -> WatchRecord := (w: WatchRecord) => w.(condition := None)

  function WithoutConditions(s: PersistentState): PersistentState {
    s.(watches := Map(Unconditional, s.watches))
  }

  lemma {:induction false} ReadWithoutConditions(values: seq<Json>)
    requires ParseAll(ParseWatch, values).Ok?
    ensures ParseAll(ParseV1Watch, values) == Ok(Map(Unconditional, ParseAll(ParseWatch, values).value))
  {
    if values != [] {
      ReadWithoutConditions(values[1..]);
      var first, rest := ParseWatch(values[0]).value, ParseAll(ParseWatch, values[1..]).value;
      assert ParseV1Watch(values[0]) == Ok(Unconditional(first));
      assert Map(Unconditional, [first] + rest) == [Unconditional(first)] + Map(Unconditional, rest);
    }
  }

  lemma WithoutConditionsValid(s: PersistentState)
    requires ValidState(s)
    ensures ValidState(WithoutConditions(s))
  {
    var watches := WithoutConditions(s).watches;
    forall w | w in watches
      ensures ValidWatch(w)
    {
      var i :| 0 <= i < |watches| && watches[i] == w;
      assert s.watches[i] in s.watches;
    }
  }

  // A document that reads as a state under version 2 reads under version 1 as the
  // same records without their conditions.
  lemma V1DropsConditions(codec: TextCodec, fields: map<string, Json>, s: PersistentState)
    requires Field(fields, "schemaVersion") == Ok(JInt(STATE_SCHEMA_VERSION))
    requires DecodeState(codec, JObject(fields)) == Ok(s)
    ensures DecodeState(codec, JObject(fields["schemaVersion" := JInt(1)])) == Ok(WithoutConditions(s))
  {
    var older := fields["schemaVersion" := JInt(1)];
    assert ParseDocument(codec, fields, ParseWatch) == Ok(s);
    ReadWithoutConditions(fields["watches"].items);
    WithoutConditionsValid(s);
    assert Field(older, "watches") == Field(fields, "watches");
    assert Field(older, "ledger") == Field(fields, "ledger");
    assert Field(older, "sources") == Field(fields, "sources");
    OlderDocument(codec, fields, older, s);
    assert older["schemaVersion"] == JInt(1);
  }

  lemma OlderDocument(codec: TextCodec, fields: map<string, Json>, older: map<string, Json>, s: PersistentState)
    requires Field(older, "watches") == Field(fields, "watches") && Field(older, "ledger") == Field(fields, "ledger")
    requires Field(older, "sources") == Field(fields, "sources")
    requires ParseDocument(codec, fields, ParseWatch) == Ok(s)
    requires ParseList(fields, "watches", ParseV1Watch) == Ok(WithoutConditions(s).watches)
    requires ValidState(WithoutConditions(s))
    ensures ParseDocument(codec, older, ParseV1Watch) == Ok(WithoutConditions(s))
  {
  }

  // Migration from version 0

  lemma {:induction false} V0WatchesPermanent(values: seq<Json>)
    ensures ParseAll(ParseV0Watch, values).Ok? ==>
              forall w :: w in ParseAll(ParseV0Watch, values).value ==> w == PermanentWatch(w.itemId)
  {
    if values != [] {
      V0WatchesPermanent(values[1..]);
    }
  }

  // A version 0 document gives permanent watches and nothing else, whatever modes
  // it named and whatever else it held; one that names an off watch is refused.
  lemma V0KeepsOnlyWatches(codec: TextCodec, fields: map<string, Json>)
    requires Field(fields, "schemaVersion") == Ok(JInt(0))
    ensures DecodeState(codec, JObject(fields)).Ok? ==>
              var s := DecodeState(codec, JObject(fields)).value;
              && s.ledger == [] && s.sources == []
              && forall w :: w in s.watches ==> w == PermanentWatch(w.itemId)
    ensures "watches" in fields && fields["watches"].JArray?
            && (exists v :: v in fields["watches"].items && NamesOff(v))
            ==> DecodeState(codec, JObject(fields)) == Err(Corrupt)
  {
    if "watches" in fields && fields["watches"].JArray? {
      V0WatchesPermanent(fields["watches"].items);
      if exists v :: v in fields["watches"].items && NamesOff(v) {
        OffRefused(fields["watches"].items);
      }
    }
  }

  predicate NamesOff(value: Json) {
    value.JObject? && "mode" in value.fields && value.fields["mode"] == JString("off")
  }

  lemma {:induction false} OffRefused(values: seq<Json>)
    requires exists v :: v in values && NamesOff(v)
    ensures ParseAll(ParseV0Watch, values) == Err(Corrupt)
  {
    var v :| v in values && NamesOff(v);
    if v != values[0] {
      assert v in values[1..];
      OffRefused(values[1..]);
    }
  }

  predicate V0Acceptable(value: Json) {
    && value.JObject? && "itemId" in value.fields && value.fields["itemId"].JString?
    && "mode" in value.fields && value.fields["mode"] in {JString("permanent"), JString("temporary")}
  }

  lemma V0WatchIff(value: Json)
    ensures ParseV0Watch(value) ==
            if V0Acceptable(value) then Ok(PermanentWatch(value.fields["itemId"].text)) else Err(Corrupt)
  {
    if value.JObject? && "mode" in value.fields && value.fields["mode"].JString? {
      var text := value.fields["mode"].text;
      ModeRead(Off);
      ModeRead(Temporary);
      ModeRead(Permanent);
    }
  }

  lemma {:induction false} V0WatchesIff(values: seq<Json>)
    ensures ParseAll(ParseV0Watch, values).Ok? <==> forall v :: v in values ==> V0Acceptable(v)
    ensures ParseAll(ParseV0Watch, values).Ok? ==>
              var watches := ParseAll(ParseV0Watch, values).value;
              && |watches| == |values|
              && forall i :: 0 <= i < |values| ==>
                   V0Acceptable(values[i]) && watches[i] == PermanentWatch(values[i].fields["itemId"].text)
  {
    if values != [] {
      V0WatchesIff(values[1..]);
      V0WatchIff(values[0]);
      assert values == [values[0]] + values[1..];
    }
  }

  // A version 0 document is accepted exactly when it lists well-formed durable
  // watches of different items.
  lemma V0AcceptedIff(codec: TextCodec, fields: map<string, Json>)
    requires Field(fields, "schemaVersion") == Ok(JInt(0))
    ensures DecodeState(codec, JObject(fields)).Ok? <==>
            && "watches" in fields && fields["watches"].JArray?
            && V0Watches(fields["watches"].items)
  {
    if "watches" in fields && fields["watches"].JArray? {
      V0WatchesIff(fields["watches"].items);
    }
  }

  predicate V0Watches(values: seq<Json>) {
    && (forall v :: v in values ==> V0Acceptable(v))
    && forall i, j :: 0 <= i < j < |values| ==>
         ItemIdOf(values[i]) != ItemIdOf(values[j])
  }

  function ItemIdOf(value: Json): string {
    if V0Acceptable(value) then value.fields["itemId"].text else ""
  }
}
