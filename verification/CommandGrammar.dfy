// Which argument vectors the helper accepts, and what each of them says.
module CommandGrammar {
  import opened Wrappers
  import opened Records
  import opened StateValidation
  import opened EnumText
  import opened DecimalText
  import opened RequestValidation
  import opened CommandLine

  function Zeros(k: nat): (s: string)
    ensures AllDigits(s) && |s| == k
  {
    if k == 0 then "" else Zeros(k - 1) + "0"
  }

  // A number is written in at most six digits; leading zeros are allowed.
  ghost predicate Writes(text: string, n: nat) {
    |text| <= 6 && exists k: nat :: text == Zeros(k) + Numeral(n)
  }

  function SeverityWord(s: Severity): string {
    if s.Critical? then "critical" else "high"
  }

  function SettingsVector(s: NotificationSettings): seq<string> {
    ["--notify-permanent", BooleanText(s.notifyPermanent), "--notify-security", BooleanText(s.notifySecurity),
     "--security-minimum-severity", SeverityWord(s.minimumSeverity)]
  }

  function ScanHead(force: bool): seq<string> {
    if force then ["scan", "--force"] else ["scan"]
  }

  ghost predicate SaysScan(arguments: seq<string>, force: bool, s: NotificationSettings, kev: bool) {
    || (arguments == ScanHead(force) && s == NotificationSettings(true, true, High) && kev)
    || (s.minimumSeverity in {High, Critical}
        && ((arguments == ScanHead(force) + SettingsVector(s) && kev)
            || arguments == ScanHead(force) + (SettingsVector(s) + ["--enable-cisa-kev", BooleanText(kev)])))
  }

  ghost predicate SaysInventory(arguments: seq<string>, source: ItemSource, query: string, limit: nat, offset: nat) {
    && |arguments| == 9 && !source.Omarchy? && |query| <= 128 && 1 <= limit <= 100 && offset <= 100_000
    && Writes(arguments[6], limit) && Writes(arguments[8], offset)
    && arguments == ["inventory", "--source", ItemSourceText(source), "--query", query, "--limit", arguments[6],
                     "--offset", arguments[8]]
  }

  ghost predicate SaysStar(arguments: seq<string>, itemId: string, mode: WatchMode, condition: Option<SecurityFixCondition>) {
    && 1 <= |itemId| <= 128
    && match condition
       case None => arguments == ["set-star", "--item-id", itemId, "--mode", ModeText(mode)]
       case Some(c) =>
         && mode.Temporary? && "arch:" <= itemId && ValidCondition(c)
         && arguments == ["set-star", "--item-id", itemId, "--mode", "temporary", "--security-advisory", c.advisoryId,
                          "--fixed-version", c.fixedVersion, "--cve-ids", Joined(c.cveIds)]
  }

  ghost predicate Says(arguments: seq<string>, command: Command) {
    match command
    case ScanCommand(force, settings, kev) => SaysScan(arguments, force, settings, kev)
    case SnapshotCommand => arguments == ["snapshot"]
    case InventoryCommand(source, query, limit, offset) => SaysInventory(arguments, source, query, limit, offset)
    case SetStarCommand(itemId, mode, condition) => SaysStar(arguments, itemId, mode, condition)
  }

  // Numbers

  lemma {:induction false} ValueOfZeros(k: nat, s: string)
    requires AllDigits(s)
    ensures AllDigits(Zeros(k) + s) && Value(Zeros(k) + s) == Value(s)
  {
    if s == "" {
      assert Zeros(k) + s == Zeros(k);
      if k > 0 {
        ValueOfZeros(k - 1, "");
        assert Zeros(k)[..k - 1] == Zeros(k - 1) + "";
      }
    } else {
      var n := |s| - 1;
      ValueOfZeros(k, s[..n]);
      assert (Zeros(k) + s)[..k + n] == Zeros(k) + s[..n];
    }
  }

  lemma NumeralNext(v: nat, c: char)
    requires IsDigit(c)
    ensures Numeral(10 * v + DigitValue(c)) == (if v == 0 then "" else Numeral(v)) + [c]
  {
    var n := 10 * v + DigitValue(c);
    assert n / 10 == v && n % 10 == DigitValue(c);
    assert DigitOf(DigitValue(c)) == c;
  }

  lemma {:induction false} DigitsAreNumeral(s: string) returns (k: nat)
    requires s != "" && AllDigits(s)
    ensures s == Zeros(k) + Numeral(Value(s))
  {
    var n := |s| - 1;
    var v := Value(s[..n]);
    NumeralNext(v, s[n]);
    if n == 0 {
      k := 0;
      assert s == [s[0]];
    } else {
      k := DigitsAreNumeral(s[..n]);
      assert s == s[..n] + [s[n]];
      if v == 0 {
        k := k + 1;
        assert Zeros(k) == Zeros(k - 1) + Numeral(0);
      } else {
        assert s == Zeros(k) + (Numeral(v) + [s[n]]);
      }
    }
  }

  lemma DecimalIff(text: string, n: nat)
    ensures Decimal(text) == Ok(n) <==> Writes(text, n)
  {
    if Writes(text, n) {
      var k: nat :| text == Zeros(k) + Numeral(n);
      ValueOfZeros(k, Numeral(n));
      NumeralValue(n);
    }
    if Decimal(text).Ok? {
      var k := DigitsAreNumeral(text);
    }
  }

  // Words

  lemma WordsRead(text: string, source: ItemSource, mode: WatchMode, b: bool, s: Severity)
    ensures InventorySource(text) == Ok(source) <==> !source.Omarchy? && text == ItemSourceText(source)
    ensures Mode(text) == Ok(mode) <==> text == ModeText(mode)
    ensures Boolean(text) == Ok(b) <==> text == BooleanText(b)
    ensures MinimumSeverity(text) == Ok(s) <==> s in {High, Critical} && text == SeverityWord(s)
  {
    ItemSourceRead(source);
    ModeRead(mode);
  }

  lemma {:induction false} JoinSplit(text: string)
    ensures Joined(SplitAtCommas(text)) == text
    decreases |text|
  {
    var first := BeforeComma(text);
    BeforeCommaIsPrefix(text);
    if |first| < |text| {
      var rest := text[|first| + 1..];
      JoinSplit(rest);
      var parts := SplitAtCommas(text);
      assert parts[1..] == SplitAtCommas(rest);
      assert text == first + "," + rest;
    }
  }

  lemma ConditionIff(advisoryId: string, cveIds: string, fixedVersion: string, c: SecurityFixCondition)
    ensures SecurityCondition(advisoryId, cveIds, fixedVersion) == Ok(c) <==>
            ValidCondition(c) && advisoryId == c.advisoryId && fixedVersion == c.fixedVersion && cveIds == Joined(c.cveIds)
  {
    JoinSplit(cveIds);
    if ValidCondition(c) {
      forall id | id in c.cveIds
        ensures ',' !in id
      {
        CveIdsHaveNoComma(id);
      }
      SplitJoined(c.cveIds);
    }
  }

  // Forms

  lemma ScanOptions(s: seq<string>)
    ensures Options(s, SCAN_OPTIONS) <==>
            |s| == 6 && s[0] == "--notify-permanent" && s[2] == "--notify-security" && s[4] == "--security-minimum-severity"
    ensures Options(s, SCAN_OPTIONS_KEV) <==>
            && |s| == 8 && s[0] == "--notify-permanent" && s[2] == "--notify-security"
            && s[4] == "--security-minimum-severity" && s[6] == "--enable-cisa-kev"
  {
    var names := SCAN_OPTIONS_KEV;
    assert |names| == 4 && names[0] == SCAN_OPTIONS[0] && names[1] == SCAN_OPTIONS[1] && names[2] == SCAN_OPTIONS[2];
    if |s| == 6 && s[0] == "--notify-permanent" && s[2] == "--notify-security" && s[4] == "--security-minimum-severity" {
      forall i | 0 <= i < 3
        ensures s[2 * i] == SCAN_OPTIONS[i]
      {
      }
    }
    if Options(s, SCAN_OPTIONS) {
      assert s[2 * 0] == SCAN_OPTIONS[0] && s[2 * 1] == SCAN_OPTIONS[1] && s[2 * 2] == SCAN_OPTIONS[2];
    }
    if Options(s, SCAN_OPTIONS_KEV) {
      assert s[2 * 0] == names[0] && s[2 * 1] == names[1] && s[2 * 2] == names[2] && s[2 * 3] == names[3];
    }
  }

  lemma SettingsIff(a: string, b: string, c: string, s: NotificationSettings)
    ensures Settings(a, b, c) == Ok(s) <==>
            && s.minimumSeverity in {High, Critical}
            && a == BooleanText(s.notifyPermanent) && b == BooleanText(s.notifySecurity) && c == SeverityWord(s.minimumSeverity)
  {
  }

  // What the part of a scan's arguments after its head says.
  lemma ScanSettingsIff(tail: seq<string>, force: bool, s: NotificationSettings, kev: bool)
    ensures ScanSettings(force, tail) == Ok(ScanCommand(force, s, kev)) <==>
            || (tail == [] && s == NotificationSettings(true, true, High) && kev)
            || (s.minimumSeverity in {High, Critical}
                && ((tail == SettingsVector(s) && kev) || tail == SettingsVector(s) + ["--enable-cisa-kev", BooleanText(kev)]))
  {
    ScanOptions(tail);
    if |tail| == 6 || |tail| == 8 {
      SettingsIff(tail[1], tail[3], tail[5], s);
    }
  }

  lemma ScanIff(arguments: seq<string>, force: bool, s: NotificationSettings, kev: bool)
    requires arguments != [] && arguments[0] == "scan"
    ensures ParseScan(arguments) == Ok(ScanCommand(force, s, kev)) <==> SaysScan(arguments, force, s, kev)
  {
    var forced := |arguments| > 1 && arguments[1] == "--force";
    var tail := if forced then arguments[2..] else arguments[1..];
    assert arguments == ScanHead(forced) + tail;
    ScanSettingsIff(tail, force, s, kev);
    ScanSplit(arguments, forced, tail, force, []);
    ScanSplit(arguments, forced, tail, force, SettingsVector(s));
    ScanSplit(arguments, forced, tail, force, SettingsVector(s) + ["--enable-cisa-kev", BooleanText(kev)]);
    ScanKeepsForce(forced, tail);
  }

  lemma ScanKeepsForce(force: bool, tail: seq<string>)
    ensures ScanSettings(force, tail).Ok? ==> ScanSettings(force, tail).value.ScanCommand? && ScanSettings(force, tail).value.force == force
  {
  }

  // Whether a scan is forced can be told from its arguments.
  lemma ScanSplit(arguments: seq<string>, forced: bool, tail: seq<string>, force: bool, other: seq<string>)
    requires arguments == ScanHead(forced) + tail
    requires forced <==> |arguments| > 1 && arguments[1] == "--force"
    requires other != [] ==> other[0] != "--force"
    ensures arguments == ScanHead(force) + other <==> force == forced && tail == other
  {
    if arguments == ScanHead(force) + other {
      if force {
        assert arguments[1] == "--force";
      } else if other != [] {
        assert arguments[1] == other[0];
      }
      assert tail == arguments[|ScanHead(forced)|..] && other == arguments[|ScanHead(force)|..];
    }
  }

  lemma InventoryOptions(o: seq<string>)
    ensures Options(o, INVENTORY_OPTIONS) <==>
            |o| == 8 && o == ["--source", o[1], "--query", o[3], "--limit", o[5], "--offset", o[7]]
  {
    if Options(o, INVENTORY_OPTIONS) {
      assert o[2 * 0] == INVENTORY_OPTIONS[0] && o[2 * 1] == INVENTORY_OPTIONS[1];
      assert o[2 * 2] == INVENTORY_OPTIONS[2] && o[2 * 3] == INVENTORY_OPTIONS[3];
    }
  }

  lemma InventoryFields(o: seq<string>, source: ItemSource, query: string, limit: nat, offset: nat)
    requires Options(o, INVENTORY_OPTIONS)
    ensures ParseInventory(o) == Ok(InventoryCommand(source, query, limit, offset)) <==>
            && !source.Omarchy? && o[1] == ItemSourceText(source) && o[3] == query && |query| <= 128
            && Writes(o[5], limit) && Writes(o[7], offset) && 1 <= limit <= 100 && offset <= 100_000
  {
    WordsRead(o[1], source, Off, true, High);
    DecimalIff(o[5], limit);
    DecimalIff(o[7], offset);
  }

  lemma InventoryIff(arguments: seq<string>, source: ItemSource, query: string, limit: nat, offset: nat)
    requires arguments != [] && arguments[0] == "inventory"
    ensures ParseCommand(arguments) == Ok(InventoryCommand(source, query, limit, offset)) <==>
            SaysInventory(arguments, source, query, limit, offset)
  {
    var o := arguments[1..];
    InventoryOptions(o);
    assert arguments == ["inventory"] + o;
    if Options(o, INVENTORY_OPTIONS) {
      InventoryFields(o, source, query, limit, offset);
    }
  }

  lemma StarOptions(o: seq<string>)
    ensures Options(o, STAR_OPTIONS) <==> |o| == 4 && o == ["--item-id", o[1], "--mode", o[3]]
    ensures Options(o, CONDITION_OPTIONS) <==>
            |o| == 10 && o == ["--item-id", o[1], "--mode", o[3], "--security-advisory", o[5], "--fixed-version", o[7],
                               "--cve-ids", o[9]]
  {
    var names := CONDITION_OPTIONS;
    assert |names| == 5 && names[0] == "--item-id" && names[1] == "--mode" && names[2] == "--security-advisory"
        && names[3] == "--fixed-version" && names[4] == "--cve-ids";
    if Options(o, STAR_OPTIONS) {
      assert o[2 * 0] == STAR_OPTIONS[0] && o[2 * 1] == STAR_OPTIONS[1];
    }
    if Options(o, names) {
      assert o[2 * 0] == names[0] && o[2 * 1] == names[1] && o[2 * 2] == names[2] && o[2 * 3] == names[3] && o[2 * 4] == names[4];
    }
  }

  lemma StarIff(arguments: seq<string>, itemId: string, mode: WatchMode, condition: Option<SecurityFixCondition>)
    requires arguments != [] && arguments[0] == "set-star"
    ensures ParseCommand(arguments) == Ok(SetStarCommand(itemId, mode, condition)) <==>
            SaysStar(arguments, itemId, mode, condition)
  {
    var o := arguments[1..];
    StarOptions(o);
    assert arguments == ["set-star"] + o;
    if |o| == 4 {
      WordsRead(o[3], ItemSource.Arch, mode, true, High);
    } else if |o| == 10 && condition.Some? {
      ConditionIff(o[5], o[9], o[7], condition.value);
    }
  }

  // For every argument vector and every command: the helper reads the one as the other
  // exactly when the vector is one of the command's written forms.
  lemma ReadIff(arguments: seq<string>, command: Command)
    ensures ParseCommand(arguments) == Ok(command) <==> Says(arguments, command)
  {
    if arguments != [] {
      match command
      case ScanCommand(force, settings, kev) =>
        if arguments[0] == "scan" {
          ScanIff(arguments, force, settings, kev);
        }
      case InventoryCommand(source, query, limit, offset) =>
        if arguments[0] == "inventory" {
          InventoryIff(arguments, source, query, limit, offset);
        }
      case SetStarCommand(itemId, mode, condition) =>
        if arguments[0] == "set-star" {
          StarIff(arguments, itemId, mode, condition);
        }
      case SnapshotCommand =>
    }
  }
}
