// The checks that requests from the user interface pass before they are queued.
module RequestValidation {
  import opened Wrappers
  import opened StateValidation
  import opened DecimalText

  // JavaScript values. A text is a sequence of characters, whose length in
  // JavaScript counts UTF-16 code units.
  datatype JsValue =
    | Undefined
    | Null
    | Flag(flag: bool)
    | Number(number: real)
    | NotFinite
    | Text(text: string)
    | List(elements: seq<JsValue>)
    | Object(fields: map<string, JsValue>)

  function Get(value: JsValue, name: string): JsValue {
    if value.Object? && name in value.fields then value.fields[name] else Undefined
  }

  function CodeUnits(c: char): nat {
    if c as int > 0xFFFF then 2 else 1
  }

  function JsLength(text: string): nat {
    if text == "" then 0 else CodeUnits(text[0]) + JsLength(text[1..])
  }

  lemma {:induction false} JsLengthBounds(text: string)
    ensures |text| <= JsLength(text) <= 2 * |text|
  {
    if text != "" {
      JsLengthBounds(text[1..]);
    }
  }

  predicate NonnegativeInteger(value: JsValue) {
    value.Number? && value.number.Floor as real == value.number && value.number >= 0.0
  }

  function IntegerOf(value: JsValue): nat
    requires NonnegativeInteger(value)
  {
    value.number.Floor
  }

  const INVENTORY_SOURCES: set<string> := {"arch", "aur", "flatpak", "mise"}
  const STAR_MODES: set<string> := {"off", "temporary", "permanent"}

  predicate ValidInventoryRequest(value: JsValue) {
    && value.Object?
    && Get(value, "source").Text? && Get(value, "source").text in INVENTORY_SOURCES
    && Get(value, "query").Text? && JsLength(Get(value, "query").text) <= 128
    && NonnegativeInteger(Get(value, "offset")) && Get(value, "offset").number <= 100000.0
    && NonnegativeInteger(Get(value, "limit")) && 1.0 <= Get(value, "limit").number <= 100.0
  }

  datatype InventoryRequest = InventoryRequest(source: string, query: string, limit: nat, offset: nat)

  function InventoryRequestOf(value: JsValue): InventoryRequest
    requires ValidInventoryRequest(value)
  {
    InventoryRequest(Get(value, "source").text, Get(value, "query").text,
                     IntegerOf(Get(value, "limit")), IntegerOf(Get(value, "offset")))
  }

  // Star requests

  datatype SecurityRequest = SecurityRequest(advisory: string, fixedVersion: string, cveIds: seq<string>)

  datatype StarRequest = StarRequest(itemId: string, mode: string, security: Option<SecurityRequest>)

  predicate HasSecurityWatchRequest(value: JsValue) {
    Get(value, "securityAdvisory") != Undefined
  }

  const SECURITY_FIELDS := ["securityAdvisory", "fixedVersion", "cveIds"]

  predicate NoSecurityFields(value: JsValue) {
    forall name :: name in SECURITY_FIELDS ==> Get(value, name) == Undefined
  }

  predicate AllCveIds(elements: seq<JsValue>) {
    && (forall i :: 0 <= i < |elements| ==> elements[i].Text? && IsCveId(elements[i].text))
    && forall i, j :: 0 <= i < j < |elements| ==> elements[i] != elements[j]
  }

  // A request for a conditional watch: all three fields, for a canonical Arch item
  // starred temporarily, naming well-formed and different CVE identifiers.
  predicate ValidSecurityFields(value: JsValue)
    requires Get(value, "itemId").Text?
  {
    && Get(value, "mode") == Text("temporary") && IsArchItemId(Get(value, "itemId").text)
    && Get(value, "securityAdvisory").Text? && IsAdvisoryId(Get(value, "securityAdvisory").text)
    && Get(value, "fixedVersion").Text? && IsFixedVersion(Get(value, "fixedVersion").text)
    && Get(value, "cveIds").List? && 1 <= |Get(value, "cveIds").elements| <= 16
    && AllCveIds(Get(value, "cveIds").elements)
  }

  predicate ValidSecurityWatch(value: JsValue)
    requires Get(value, "itemId").Text?
  {
    NoSecurityFields(value) || ValidSecurityFields(value)
  }

  function FirstIndex(elements: seq<JsValue>, v: JsValue): (k: nat)
    requires v in elements
    ensures k < |elements| && elements[k] == v && forall i :: 0 <= i < k ==> elements[i] != v
  {
    if elements[0] == v then 0 else FirstIndex(elements[1..], v) + 1
  }

  lemma NoSecurityIff(value: JsValue)
    ensures NoSecurityFields(value) <==>
            Get(value, "securityAdvisory") == Undefined && Get(value, "fixedVersion") == Undefined && Get(value, "cveIds") == Undefined
  {
    assert SECURITY_FIELDS[0] in SECURITY_FIELDS && SECURITY_FIELDS[1] in SECURITY_FIELDS && SECURITY_FIELDS[2] in SECURITY_FIELDS;
  }

  // The loop over the CVE identifiers.
  method ValidCveIds(elements: seq<JsValue>) returns (valid: bool)
    ensures valid <==> AllCveIds(elements)
  {
    var index := 0;
    while index < |elements|
      invariant 0 <= index <= |elements|
      invariant AllCveIds(elements[..index])
    {
      var cveId := elements[index];
      if !cveId.Text? || !IsCveId(cveId.text) { return false; }
      var first := FirstIndex(elements, cveId);
      if first != index {
        assert elements[first] == elements[index];
        return false;
      }
      index := index + 1;
    }
    assert elements[..index] == elements;
    return true;
  }

  method ValidSecurityWatchRequest(value: JsValue) returns (valid: bool)
    requires Get(value, "itemId").Text?
    ensures valid <==> ValidSecurityWatch(value)
  {
    var advisory, fixedVersion := Get(value, "securityAdvisory"), Get(value, "fixedVersion");
    var cveIds := Get(value, "cveIds");
    var present :=
      (if advisory != Undefined then 1 else 0) + (if fixedVersion != Undefined then 1 else 0)
      + (if cveIds != Undefined then 1 else 0);
    NoSecurityIff(value);
    if present == 0 { return true; }
    if present != 3 || Get(value, "mode") != Text("temporary") || !IsArchItemId(Get(value, "itemId").text) {
      return false;
    }
    if !advisory.Text? || !IsAdvisoryId(advisory.text) || !fixedVersion.Text? || !IsFixedVersion(fixedVersion.text)
       || !cveIds.List? || |cveIds.elements| == 0 || |cveIds.elements| > 16 {
      return false;
    }
    valid := ValidCveIds(cveIds.elements);
  }

  predicate ValidStarRequest(value: JsValue) {
    && value.Object?
    && Get(value, "itemId").Text? && 1 <= JsLength(Get(value, "itemId").text) <= 128
    && Get(value, "mode").Text? && Get(value, "mode").text in STAR_MODES
    && ValidSecurityWatch(value)
  }

  function CveTexts(elements: seq<JsValue>): seq<string>
    requires AllCveIds(elements)
  {
    seq(|elements|, i requires 0 <= i < |elements| => elements[i].text)
  }

  function StarRequestOf(value: JsValue): StarRequest
    requires ValidStarRequest(value)
  {
    StarRequest(Get(value, "itemId").text, Get(value, "mode").text,
                if !HasSecurityWatchRequest(value) then None
                else
                  assert !NoSecurityFields(value) by { NoSecurityIff(value); }
                  Some(SecurityRequest(Get(value, "securityAdvisory").text, Get(value, "fixedVersion").text,
                                       CveTexts(Get(value, "cveIds").elements))))
  }

  // What an accepted star request amounts to.
  lemma StarRequestShape(value: JsValue)
    requires ValidStarRequest(value)
    ensures var r := StarRequestOf(value);
            && 1 <= |r.itemId| <= 128 && r.mode in STAR_MODES
            && (r.security.Some? ==>
                  && r.mode == "temporary" && IsArchItemId(r.itemId)
                  && IsAdvisoryId(r.security.value.advisory) && IsFixedVersion(r.security.value.fixedVersion)
                  && 1 <= |r.security.value.cveIds| <= 16
                  && (forall id :: id in r.security.value.cveIds ==> IsCveId(id))
                  && forall i, j :: 0 <= i < j < |r.security.value.cveIds| ==>
                       r.security.value.cveIds[i] != r.security.value.cveIds[j])
  {
    JsLengthBounds(Get(value, "itemId").text);
    NoSecurityIff(value);
  }

  // The argument vectors

  function InventoryArguments(r: InventoryRequest): seq<string> {
    ["inventory", "--source", r.source, "--query", r.query,
     "--limit", Numeral(r.limit), "--offset", Numeral(r.offset)]
  }

  function StarArguments(r: StarRequest): seq<string>
    requires r.security.Some? ==> r.security.value.cveIds != []
  {
    ["set-star", "--item-id", r.itemId, "--mode", r.mode]
    + if r.security.None? then []
      else ["--security-advisory", r.security.value.advisory,
            "--fixed-version", r.security.value.fixedVersion,
            "--cve-ids", Joined(r.security.value.cveIds)]
  }

  const SNAPSHOT_ARGUMENTS := ["snapshot"]

  function ScanArgumentVector(force: bool, settings: seq<string>): seq<string> {
    (if force then ["scan", "--force"] else ["scan"]) + settings
  }

  // Scan settings

  function BooleanText(value: bool): string {
    if value then "true" else "false"
  }

  // Settings that are missing or not booleans count as switched on.
  function BooleanSetting(settings: JsValue, name: string): bool {
    if Get(settings, name).Flag? then Get(settings, name).flag else true
  }

  function SeveritySetting(settings: JsValue): string {
    if Get(settings, "securityMinimumSeverity") == Text("critical") then "critical" else "high"
  }

  function ScanArguments(settings: JsValue): seq<string> {
    ["--notify-permanent", BooleanText(BooleanSetting(settings, "notifyPermanent")),
     "--notify-security", BooleanText(BooleanSetting(settings, "notifySecurity")),
     "--security-minimum-severity", SeveritySetting(settings),
     "--enable-cisa-kev", BooleanText(BooleanSetting(settings, "enableCisaKev"))]
  }
}
