// The interface accepts exactly the requests that the helper reads back as what was
// asked for, but for the two places where the interface is stricter.
module RequestAgreement {
  import opened Wrappers
  import opened Records
  import opened StateValidation
  import opened EnumText
  import opened DecimalText
  import opened RequestValidation
  import opened CommandLine
  import opened CommandGrammar

  // Characters outside the basic plane, which take two UTF-16 code units.
  function Astral(text: string): set<nat> {
    set i: nat | i < |text| && text[i] as int >= 0x1_0000
  }

  lemma {:induction false} JsLengthLast(text: string, c: char)
    ensures JsLength(text + [c]) == JsLength(text) + JsLength([c])
  {
    if text == "" {
      assert text + [c] == [c];
    } else {
      assert (text + [c])[1..] == text[1..] + [c];
      JsLengthLast(text[1..], c);
    }
  }

  // The length of a text in JavaScript.
  lemma {:induction false} JsLengthIs(text: string)
    ensures JsLength(text) == |text| + |Astral(text)|
  {
    if text != "" {
      var n := |text| - 1;
      JsLengthIs(text[..n]);
      JsLengthLast(text[..n], text[n]);
      assert text[..n] + [text[n]] == text;
      assert JsLength([text[n]]) == CodeUnits(text[n]) + JsLength([text[n]][1..]);
      assert Astral(text) == Astral(text[..n]) + if text[n] as int >= 0x1_0000 then {n} else {};
    } else {
      assert Astral(text) == {};
    }
  }

  // A value that asks for a page of an inventory.
  ghost predicate AsksInventory(value: JsValue, r: InventoryRequest) {
    && value.Object?
    && Get(value, "source") == Text(r.source) && Get(value, "query") == Text(r.query)
    && Get(value, "limit") == Number(r.limit as real) && Get(value, "offset") == Number(r.offset as real)
  }

  function InventoryCommandOf(r: InventoryRequest, source: ItemSource): Command {
    InventoryCommand(source, r.query, r.limit, r.offset)
  }

  ghost predicate ReadsInventory(r: InventoryRequest) {
    exists source :: ParseCommand(InventoryArguments(r)) == Ok(InventoryCommandOf(r, source))
  }

  lemma InventoryReadIff(r: InventoryRequest, source: ItemSource)
    ensures ParseCommand(InventoryArguments(r)) == Ok(InventoryCommandOf(r, source)) <==>
            && !source.Omarchy? && r.source == ItemSourceText(source)
            && |r.query| <= 128 && 1 <= r.limit <= 100 && r.offset <= 100_000
  {
    var arguments := InventoryArguments(r);
    ReadIff(arguments, InventoryCommandOf(r, source));
    if r.limit <= 100 && r.offset <= 100_000 {
      NumeralWritten(r.limit);
      NumeralWritten(r.offset);
    }
  }

  lemma NumeralWritten(n: nat)
    requires n < 1_000_000
    ensures Writes(Numeral(n), n)
  {
    NumeralRead(n);
    DecimalIff(Numeral(n), n);
  }

  lemma SourceNames(source: ItemSource)
    ensures !source.Omarchy? <==> ItemSourceText(source) in INVENTORY_SOURCES
    ensures forall text :: text in INVENTORY_SOURCES ==> exists s: ItemSource :: text == ItemSourceText(s)
  {
    assert ItemSourceText(ItemSource.Arch) == "arch" && ItemSourceText(ItemSource.Aur) == "aur";
    assert ItemSourceText(ItemSource.Flatpak) == "flatpak" && ItemSourceText(ItemSource.Mise) == "mise";
    assert "omarchy"[0] == 'o';
    assert "omarchy" !in INVENTORY_SOURCES;
  }

  // For every value: it is accepted exactly when it asks for a page that the helper
  // reads back as asked, and its query is short enough in code units as well.
  lemma InventoryAcceptedIff(value: JsValue)
    ensures ValidInventoryRequest(value) <==>
            exists r :: AsksInventory(value, r) && JsLength(r.query) <= 128 && ReadsInventory(r)
  {
    if ValidInventoryRequest(value) {
      var r := InventoryRequestOf(value);
      InventoryRoundTrip(value);
      assert ParseCommand(InventoryArguments(r)) == Ok(InventoryCommandOf(r, ItemSourceOf(r.source).value));
      assert AsksInventory(value, r) && JsLength(r.query) <= 128 && ReadsInventory(r);
    }
    if r :| AsksInventory(value, r) && JsLength(r.query) <= 128 && ReadsInventory(r) {
      var source :| ParseCommand(InventoryArguments(r)) == Ok(InventoryCommandOf(r, source));
      InventoryReadIff(r, source);
      SourceNames(source);
      assert (r.limit as real).Floor == r.limit && (r.offset as real).Floor == r.offset;
    }
  }

  // A value that asks for a star.
  ghost predicate AsksStar(value: JsValue, r: StarRequest) {
    && value.Object?
    && Get(value, "itemId") == Text(r.itemId) && Get(value, "mode") == Text(r.mode)
    && match r.security
       case None => NoSecurityFields(value)
       case Some(s) =>
         && Get(value, "securityAdvisory") == Text(s.advisory) && Get(value, "fixedVersion") == Text(s.fixedVersion)
         && Get(value, "cveIds") == List(Texts(s.cveIds)) && s.cveIds != []
  }

  function Texts(texts: seq<string>): seq<JsValue> {
    seq(|texts|, i requires 0 <= i < |texts| => Text(texts[i]))
  }

  ghost predicate ReadsStar(r: StarRequest)
    requires r.security.Some? ==> r.security.value.cveIds != []
  {
    exists mode: WatchMode :: ParseCommand(StarArguments(r)) == Ok(StarCommandOf(r, mode))
  }

  function StarCommandOf(r: StarRequest, mode: WatchMode): Command {
    SetStarCommand(r.itemId, mode, if r.security.None? then None else Some(ConditionOf(r.security.value)))
  }

  lemma StarReadIff(r: StarRequest, mode: WatchMode)
    requires r.security.Some? ==> r.security.value.cveIds != []
    ensures ParseCommand(StarArguments(r)) == Ok(StarCommandOf(r, mode)) <==>
            && 1 <= |r.itemId| <= 128 && r.mode == ModeText(mode)
            && (r.security.Some? ==> mode.Temporary? && "arch:" <= r.itemId && ValidCondition(ConditionOf(r.security.value)))
  {
    ReadIff(StarArguments(r), StarCommandOf(r, mode));
    var a := StarArguments(r);
    assert a[0] == "set-star" && a[1] == "--item-id" && a[2] == r.itemId && a[3] == "--mode" && a[4] == r.mode;
  }

  lemma StarModes(text: string)
    ensures text in STAR_MODES <==> exists mode: WatchMode :: text == ModeText(mode)
  {
    assert ModeText(Off) == "off" && ModeText(Temporary) == "temporary" && ModeText(Permanent) == "permanent";
  }

  lemma TextsAreCveIds(ids: seq<string>)
    ensures AllCveIds(Texts(ids)) <==>
            (forall i :: 0 <= i < |ids| ==> IsCveId(ids[i])) && forall i, j :: 0 <= i < j < |ids| ==> ids[i] != ids[j]
  {
    var elements := Texts(ids);
    assert forall i :: 0 <= i < |ids| ==> elements[i] == Text(ids[i]);
  }

  // For every value: it is accepted exactly when it asks for a star that the helper
  // reads back as asked, its identifier is short enough in code units as well, and a
  // condition is for a canonical Arch item.
  lemma StarAcceptedIff(value: JsValue)
    ensures ValidStarRequest(value) <==>
            exists r :: AsksStar(value, r) && JsLength(r.itemId) <= 128 && ReadsStar(r)
              && (r.security.Some? ==> IsArchItemId(r.itemId))
  {
    if ValidStarRequest(value) {
      AcceptedAsks(value);
    }
    if r :| AsksStar(value, r) && JsLength(r.itemId) <= 128 && ReadsStar(r)
            && (r.security.Some? ==> IsArchItemId(r.itemId)) {
      AskedAccepted(value, r);
    }
  }

  lemma AcceptedAsks(value: JsValue)
    requires ValidStarRequest(value)
    ensures var r := StarRequestOf(value);
            AsksStar(value, r) && JsLength(r.itemId) <= 128 && ReadsStar(r) && (r.security.Some? ==> IsArchItemId(r.itemId))
  {
    var r := StarRequestOf(value);
    NoSecurityIff(value);
    StarRequestShape(value);
    StarRoundTrip(value);
    if r.security.Some? {
      assert Texts(r.security.value.cveIds) == Get(value, "cveIds").elements;
    }
    assert ParseCommand(StarArguments(r)) == Ok(StarCommandOf(r, ModeOf(r.mode).value));
  }

  lemma AskedAccepted(value: JsValue, r: StarRequest)
    requires AsksStar(value, r) && JsLength(r.itemId) <= 128 && ReadsStar(r)
    requires r.security.Some? ==> IsArchItemId(r.itemId)
    ensures ValidStarRequest(value)
  {
    var mode :| ParseCommand(StarArguments(r)) == Ok(StarCommandOf(r, mode));
    StarReadIff(r, mode);
    StarModes(r.mode);
    JsLengthBounds(r.itemId);
    if r.security.Some? {
      TextsAreCveIds(r.security.value.cveIds);
    }
  }
}
