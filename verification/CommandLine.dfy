// The helper's command line, and the argument vectors it reads back.
module CommandLine {
  import opened Wrappers
  import opened Records
  import opened StateValidation
  import opened EnumText
  import opened DecimalText
  import opened RequestValidation

  const MAX_OFFSET := 100_000
  const MAX_QUERY_LENGTH := 128

  datatype NotificationSettings = NotificationSettings(notifyPermanent: bool, notifySecurity: bool, minimumSeverity: Severity)

  const DEFAULT_SETTINGS := NotificationSettings(true, true, High)

  datatype Command =
    | ScanCommand(force: bool, settings: NotificationSettings, enableCisaKev: bool)
    | SnapshotCommand
    | InventoryCommand(source: ItemSource, query: string, limit: nat, offset: nat)
    | SetStarCommand(itemId: string, mode: WatchMode, condition: Option<SecurityFixCondition>)

  datatype Usage = Unsupported

  type Parsed<T> = Result<T, Usage>

  function Decimal(text: string): Parsed<nat> {
    if text == "" || !AllDigits(text) || |text| > 6 then Err(Unsupported) else Ok(Value(text))
  }

  function Limit(text: string): Parsed<nat> {
    var parsed :- Decimal(text);
    if parsed < 1 || parsed > 100 then Err(Unsupported) else Ok(parsed)
  }

  function Offset(text: string): Parsed<nat> {
    var parsed :- Decimal(text);
    if parsed > MAX_OFFSET then Err(Unsupported) else Ok(parsed)
  }

  function Query(text: string): Parsed<string> {
    if |text| > MAX_QUERY_LENGTH then Err(Unsupported) else Ok(text)
  }

  function InventorySource(text: string): Parsed<ItemSource> {
    match ItemSourceOf(text)
    case Some(source) => if source.Omarchy? then Err(Unsupported) else Ok(source)
    case None => Err(Unsupported)
  }

  function ItemId(text: string): Parsed<string> {
    if text == "" || |text| > 128 then Err(Unsupported) else Ok(text)
  }

  function ArchItemId(text: string): Parsed<string> {
    var itemId :- ItemId(text);
    if "arch:" <= itemId then Ok(itemId) else Err(Unsupported)
  }

  function Mode(text: string): Parsed<WatchMode> {
    match ModeOf(text) case Some(mode) => Ok(mode) case None => Err(Unsupported)
  }

  function Boolean(text: string): Parsed<bool> {
    if text == "true" then Ok(true) else if text == "false" then Ok(false) else Err(Unsupported)
  }

  function MinimumSeverity(text: string): Parsed<Severity> {
    if text == "high" then Ok(High) else if text == "critical" then Ok(Critical) else Err(Unsupported)
  }

  function Settings(permanent: string, security: string, severity: string): Parsed<NotificationSettings> {
    var notifyPermanent :- Boolean(permanent);
    var notifySecurity :- Boolean(security);
    var minimumSeverity :- MinimumSeverity(severity);
    Ok(NotificationSettings(notifyPermanent, notifySecurity, minimumSeverity))
  }

  function SecurityCondition(advisoryId: string, cveIds: string, fixedVersion: string): Parsed<SecurityFixCondition> {
    var condition := SecurityFixCondition(advisoryId, SplitAtCommas(cveIds), fixedVersion);
    if ValidCondition(condition) then Ok(condition) else Err(Unsupported)
  }

  // The arguments at the even positions of a vector are the option names of a form.
  predicate Options(arguments: seq<string>, names: seq<string>) {
    |arguments| == 2 * |names| && forall i :: 0 <= i < |names| ==> arguments[2 * i] == names[i]
  }

  const SCAN_OPTIONS := ["--notify-permanent", "--notify-security", "--security-minimum-severity"]
  const SCAN_OPTIONS_KEV := SCAN_OPTIONS + ["--enable-cisa-kev"]
  const INVENTORY_OPTIONS := ["--source", "--query", "--limit", "--offset"]
  const STAR_OPTIONS := ["--item-id", "--mode"]
  const CONDITION_OPTIONS := STAR_OPTIONS + ["--security-advisory", "--fixed-version", "--cve-ids"]

  function ParseScan(arguments: seq<string>): Parsed<Command>
    requires arguments != []
  {
    var force := |arguments| > 1 && arguments[1] == "--force";
    ScanSettings(force, if force then arguments[2..] else arguments[1..])
  }

  function ScanSettings(force: bool, settings: seq<string>): Parsed<Command> {
    if settings == [] then Ok(ScanCommand(force, DEFAULT_SETTINGS, true))
    else if Options(settings, SCAN_OPTIONS) then
      var notifications :- Settings(settings[1], settings[3], settings[5]);
      Ok(ScanCommand(force, notifications, true))
    else if Options(settings, SCAN_OPTIONS_KEV) then
      var notifications :- Settings(settings[1], settings[3], settings[5]);
      var kev :- Boolean(settings[7]);
      Ok(ScanCommand(force, notifications, kev))
    else Err(Unsupported)
  }

  function ParseInventory(options: seq<string>): Parsed<Command>
    requires Options(options, INVENTORY_OPTIONS)
  {
    var source :- InventorySource(options[1]);
    var query :- Query(options[3]);
    var limit :- Limit(options[5]);
    var offset :- Offset(options[7]);
    Ok(InventoryCommand(source, query, limit, offset))
  }

  function ParseStar(options: seq<string>): Parsed<Command> {
    if Options(options, STAR_OPTIONS) then
      var itemId :- ItemId(options[1]);
      var mode :- Mode(options[3]);
      Ok(SetStarCommand(itemId, mode, None))
    else if Options(options, CONDITION_OPTIONS) && options[3] == "temporary" then
      var itemId :- ArchItemId(options[1]);
      var condition :- SecurityCondition(options[5], options[9], options[7]);
      Ok(SetStarCommand(itemId, Temporary, Some(condition)))
    else Err(Unsupported)
  }

  function ParseCommand(arguments: seq<string>): Parsed<Command> {
    if arguments == [] then Err(Unsupported)
    else if arguments[0] == "scan" then ParseScan(arguments)
    else if arguments == ["snapshot"] then Ok(SnapshotCommand)
    else if arguments[0] == "inventory" && Options(arguments[1..], INVENTORY_OPTIONS) then ParseInventory(arguments[1..])
    else if arguments[0] == "set-star" then ParseStar(arguments[1..])
    else Err(Unsupported)
  }

  // Round trips

  lemma NumeralRead(n: nat)
    requires n < 1_000_000
    ensures Decimal(Numeral(n)) == Ok(n)
  {
    NumeralValue(n);
    assert PowerOfTen(6) == 1_000_000;
    NumeralLength(n, 6);
  }

  lemma InventoryRead(r: InventoryRequest)
    requires r.source in INVENTORY_SOURCES && |r.query| <= 128 && 1 <= r.limit <= 100 && r.offset <= 100_000
    ensures ParseCommand(InventoryArguments(r)) ==
            Ok(InventoryCommand(ItemSourceOf(r.source).value, r.query, r.limit, r.offset))
  {
    var arguments := InventoryArguments(r);
    var options := arguments[1..];
    assert options == ["--source", r.source, "--query", r.query, "--limit", Numeral(r.limit), "--offset", Numeral(r.offset)];
    NumeralRead(r.limit);
    NumeralRead(r.offset);
  }

  // Every inventory request the interface accepts is read back by the helper as
  // the same source, query and page.
  lemma InventoryRoundTrip(value: JsValue)
    requires ValidInventoryRequest(value)
    ensures var r := InventoryRequestOf(value);
            && ItemSourceOf(r.source).Some?
            && ParseCommand(InventoryArguments(r)) ==
               Ok(InventoryCommand(ItemSourceOf(r.source).value, r.query, r.limit, r.offset))
            && ItemSourceText(ItemSourceOf(r.source).value) == r.source
  {
    var r := InventoryRequestOf(value);
    JsLengthBounds(r.query);
    InventoryRead(r);
  }

  function ConditionOf(r: SecurityRequest): SecurityFixCondition {
    SecurityFixCondition(r.advisory, r.cveIds, r.fixedVersion)
  }

  lemma CveIdsHaveNoComma(id: string)
    requires IsCveId(id)
    ensures ',' !in id
  {
    forall i | 0 <= i < |id|
      ensures id[i] != ','
    {
      if i < 4 {
        assert id[i] == id[..4][i] == "CVE-"[i];
      } else if i < 8 {
        assert id[i] == id[4..8][i - 4] && id[4..8][i - 4] in id[4..8];
      } else if i > 8 {
        assert id[i] == id[9..][i - 9] && id[9..][i - 9] in id[9..];
      }
    }
  }

  lemma ConditionRead(r: SecurityRequest)
    requires IsAdvisoryId(r.advisory) && IsFixedVersion(r.fixedVersion) && 1 <= |r.cveIds| <= 16
    requires forall id :: id in r.cveIds ==> IsCveId(id)
    requires forall i, j :: 0 <= i < j < |r.cveIds| ==> r.cveIds[i] != r.cveIds[j]
    ensures SecurityCondition(r.advisory, Joined(r.cveIds), r.fixedVersion) == Ok(ConditionOf(r))
  {
    forall id | id in r.cveIds
      ensures ',' !in id
    {
      CveIdsHaveNoComma(id);
    }
    SplitJoined(r.cveIds);
  }

  lemma PlainStarRead(r: StarRequest)
    requires r.security.None? && 1 <= |r.itemId| <= 128 && ModeOf(r.mode).Some?
    ensures ParseCommand(StarArguments(r)) == Ok(SetStarCommand(r.itemId, ModeOf(r.mode).value, None))
  {
    var options := StarArguments(r)[1..];
    assert options == ["--item-id", r.itemId, "--mode", r.mode];
  }

  lemma ConditionalStarRead(r: StarRequest)
    requires r.security.Some? && 1 <= |r.itemId| <= 128 && IsArchItemId(r.itemId) && r.mode == "temporary"
    requires r.security.value.cveIds != []
    requires SecurityCondition(r.security.value.advisory, Joined(r.security.value.cveIds), r.security.value.fixedVersion)
          == Ok(ConditionOf(r.security.value))
    ensures ParseCommand(StarArguments(r)) == Ok(SetStarCommand(r.itemId, Temporary, Some(ConditionOf(r.security.value))))
  {
    var s := r.security.value;
    var options := StarArguments(r)[1..];
    assert options == ["--item-id", r.itemId, "--mode", r.mode, "--security-advisory", s.advisory,
                       "--fixed-version", s.fixedVersion, "--cve-ids", Joined(s.cveIds)];
    assert r.itemId[..5] == "arch:";
  }

  // Every star request the interface accepts is read back by the helper as the same
  // item, mode and security condition.
  lemma StarRoundTrip(value: JsValue)
    requires ValidStarRequest(value)
    ensures var r := StarRequestOf(value);
            && (r.security.Some? ==> r.security.value.cveIds != [])
            && ModeOf(r.mode).Some? && ModeText(ModeOf(r.mode).value) == r.mode
            && ParseCommand(StarArguments(r)) ==
               Ok(SetStarCommand(r.itemId, ModeOf(r.mode).value,
                                 if r.security.None? then None else Some(ConditionOf(r.security.value))))
  {
    var r := StarRequestOf(value);
    StarRequestShape(value);
    if r.security.None? {
      PlainStarRead(r);
    } else {
      ConditionRead(r.security.value);
      ConditionalStarRead(r);
    }
  }

  // Everything is on unless it is switched off, and only critical findings are a choice.
  function SettingsOf(settings: JsValue): NotificationSettings {
    NotificationSettings(!SwitchedOff(settings, "notifyPermanent"), !SwitchedOff(settings, "notifySecurity"),
                         if Get(settings, "securityMinimumSeverity") == Text("critical") then Critical else High)
  }

  predicate SwitchedOff(settings: JsValue, name: string) {
    Get(settings, name) == Flag(false)
  }

  lemma SettingsRead(settings: JsValue)
    ensures var a := ScanArguments(settings);
            && !Options(a, SCAN_OPTIONS) && Options(a, SCAN_OPTIONS_KEV)
            && Settings(a[1], a[3], a[5]) == Ok(SettingsOf(settings))
            && Boolean(a[7]) == Ok(!SwitchedOff(settings, "enableCisaKev"))
  {
    var a := ScanArguments(settings);
    var names := SCAN_OPTIONS_KEV;
    assert |names| == 4 && names[0] == a[0] && names[1] == a[2] && names[2] == a[4] && names[3] == a[6];
  }

  lemma ScanTail(force: bool, settings: seq<string>)
    requires settings != [] ==> settings[0] != "--force"
    ensures var a := ScanArgumentVector(force, settings);
            && (force <==> |a| > 1 && a[1] == "--force")
            && (if force then a[2..] else a[1..]) == settings
  {
  }

  // Every scan built from the settings is read back with those settings, and one
  // built without them is read back with the defaults.
  lemma ScanRoundTrip(force: bool, settings: JsValue)
    ensures ParseCommand(ScanArgumentVector(force, ScanArguments(settings)))
         == Ok(ScanCommand(force, SettingsOf(settings), !SwitchedOff(settings, "enableCisaKev")))
    ensures ParseCommand(ScanArgumentVector(force, [])) == Ok(ScanCommand(force, DEFAULT_SETTINGS, true))
  {
    SettingsRead(settings);
    ScanTail(force, ScanArguments(settings));
    ScanTail(force, []);
  }

  // A queued scan that is upgraded to a forced one gets --force at the end. The
  // helper reads the result exactly when the scan was queued without settings.
  lemma UpgradedScanIff(settings: seq<string>)
    ensures ParseCommand(ScanArgumentVector(false, settings) + ["--force"]).Ok? <==> settings == []
    ensures settings == [] ==>
              ParseCommand(ScanArgumentVector(false, settings) + ["--force"]) == Ok(ScanCommand(true, DEFAULT_SETTINGS, true))
  {
    var upgraded := ScanArgumentVector(false, settings) + ["--force"];
    if settings == [] {
      assert upgraded[2..] == [];
    } else {
      var rest := if upgraded[1] == "--force" then upgraded[2..] else upgraded[1..];
      assert rest != [] && rest[|rest| - 1] == "--force";
      EndsInForce(rest);
    }
  }

  lemma EndsInForce(options: seq<string>)
    requires options != [] && options[|options| - 1] == "--force"
    ensures Options(options, SCAN_OPTIONS) ==> Settings(options[1], options[3], options[5]).Err?
    ensures Options(options, SCAN_OPTIONS_KEV) ==> Boolean(options[7]).Err?
  {
  }

  // With the interface's own settings the upgraded scan is therefore refused.
  lemma UpgradedScanRefused(settings: JsValue)
    ensures ParseCommand(ScanArgumentVector(false, ScanArguments(settings)) + ["--force"]) == Err(Unsupported)
  {
    UpgradedScanIff(ScanArguments(settings));
  }

  // A snapshot, which the interface requests at its start, is read back as one.
  lemma SnapshotRead()
    ensures ParseCommand(SNAPSHOT_ARGUMENTS) == Ok(SnapshotCommand)
  {
  }
}
