// A generation bundle as a JSON document that packs its responses and its state.
module GenerationCodec {
  import opened Wrappers
  import opened Records
  import opened Sorting
  import opened JsonTree
  import opened LedgerPruning
  import opened StateValidation
  import EnumText
  import StateCodec
  import ResponseValidation
  import Wire
  import WireRoundTrip

  const GENERATION_SCHEMA_VERSION := 1

  // A bundle is unreadable, or holds a state of a newer schema.
  datatype GenerationError = Unreadable | NewerState(version: int)

  type Decoded<T> = Result<T, GenerationError>

  const LAST_GOOD_KEYS: set<string> := {
    "security", "cisa-kev", "omarchy", "arch", "aur", "flatpak", "mise", "flatpak:user", "flatpak:system"}

  const GENERATION_FIELDS: set<string> := {
    "schemaVersion", "order", "snapshot", "inventories", "state", "lastGood", "lastGoodKeys"}

  predicate ValidResponse(r: Response) {
    ResponseValidation.ValidateResponse(r).None?
  }

  // Inventories come in the order of their source names, each source once.
  predicate OrderedInventories(inventories: seq<Inventory>) {
    forall i, j :: 0 <= i < j < |inventories| ==>
      && inventories[i].payload.source != inventories[j].payload.source
      && StringLe(EnumText.ItemSourceText(inventories[i].payload.source), EnumText.ItemSourceText(inventories[j].payload.source))
  }

  predicate ValidKeys(keys: seq<string>) {
    && (forall i, j :: 0 <= i < j < |keys| ==> keys[i] != keys[j])
    && forall k :: k in keys ==> k in LAST_GOOD_KEYS
  }

  // The place of a source among the inventories.
  function Rank(source: ItemSource): nat {
    match source
    case Arch => 0
    case Aur => 1
    case Flatpak => 2
    case Mise => 3
    case Omarchy => 4
  }

  // In other words: Arch, AUR, Flatpak, mise and Omarchy, in this order, some left out.
  lemma InventoriesRanked(inventories: seq<Inventory>)
    ensures OrderedInventories(inventories) <==>
            forall i, j :: 0 <= i < j < |inventories| ==> Rank(inventories[i].payload.source) < Rank(inventories[j].payload.source)
  {
    forall a: ItemSource, b: ItemSource
      ensures Rank(a) < Rank(b) <==> a != b && StringLe(EnumText.ItemSourceText(a), EnumText.ItemSourceText(b))
    {
      RankIsOrder(a, b);
    }
  }

  lemma RankIsOrder(a: ItemSource, b: ItemSource)
    ensures Rank(a) < Rank(b) <==> a != b && StringLe(EnumText.ItemSourceText(a), EnumText.ItemSourceText(b))
  {
    var s, t := EnumText.ItemSourceText(a), EnumText.ItemSourceText(b);
    assert s[0] == t[0] ==> StringLe(s, t) == StringLe(s[1..], t[1..]);
    assert StringLe("rch", "ur") && !StringLe("ur", "rch");
  }

  // The keys are names of sources and of the two Flatpak scopes, none of them twice.
  lemma KeysNamed(keys: seq<string>)
    ensures ValidKeys(keys) <==>
            && (forall i, j :: 0 <= i < |keys| && 0 <= j < |keys| && keys[i] == keys[j] ==> i == j)
            && forall k :: k in keys ==>
                 (exists s: SourceName :: k == EnumText.SourceText(s))
                 || (exists s: SourceScope :: k == EnumText.SourceText(SourceName.Flatpak) + ":" + EnumText.ScopeText(s))
  {
    forall k: string
      ensures k in LAST_GOOD_KEYS <==>
              (exists s: SourceName :: k == EnumText.SourceText(s))
              || (exists s: SourceScope :: k == EnumText.SourceText(SourceName.Flatpak) + ":" + EnumText.ScopeText(s))
    {
      KeyNamed(k);
    }
  }

  lemma KeyNamed(k: string)
    ensures k in LAST_GOOD_KEYS <==>
            (exists s: SourceName :: k == EnumText.SourceText(s))
            || (exists s: SourceScope :: k == EnumText.SourceText(SourceName.Flatpak) + ":" + EnumText.ScopeText(s))
  {
    assert EnumText.SourceText(SourceName.Security) == "security" && EnumText.SourceText(SourceName.CisaKev) == "cisa-kev";
    assert EnumText.SourceText(SourceName.Omarchy) == "omarchy" && EnumText.SourceText(SourceName.Arch) == "arch";
    assert EnumText.SourceText(SourceName.Aur) == "aur" && EnumText.SourceText(SourceName.Flatpak) == "flatpak";
    assert EnumText.SourceText(SourceName.Mise) == "mise";
    assert EnumText.SourceText(SourceName.Flatpak) + ":" + EnumText.ScopeText(User) == "flatpak:user";
    assert EnumText.SourceText(SourceName.Flatpak) + ":" + EnumText.ScopeText(System) == "flatpak:system";
  }

  predicate ValidBundle(b: GenerationBundle) {
    && b.order >= 0
    && ValidResponse(SnapshotResponse(b.snapshot)) && ValidResponse(SnapshotResponse(b.lastGood))
    && OrderedInventories(b.inventories)
    && (forall i :: i in b.inventories ==> ValidResponse(InventoryResponse(i)))
    && ValidState(b.state)
    && ValidKeys(b.lastGoodKeys)
  }

  // Writing

  function Packed(codec: TextCodec, r: Response): Json
    requires ValidResponse(r)
  {
    JString(codec.pack(Wire.ResponseValue(codec, r).value))
  }

  // Applied to valid inventories only.
  function InventoryWriter(codec: TextCodec): Inventory -> Json {
    (i: Inventory) => if ValidResponse(InventoryResponse(i)) then Packed(codec, InventoryResponse(i)) else JNull
  }

  function BundleFields(order: int, snapshot: Json, inventories: seq<Json>, state: Json, lastGood: Json,
                        keys: seq<Json>)
    : map<string, Json>
  {
    map["schemaVersion" := JInt(GENERATION_SCHEMA_VERSION),
        "order" := JInt(order),
        "snapshot" := snapshot,
        "inventories" := JArray(inventories),
        "state" := state,
        "lastGood" := lastGood,
        "lastGoodKeys" := JArray(keys)]
  }

  function PackedState(codec: TextCodec, s: PersistentState): Json {
    JString(codec.pack(StateCodec.StateDocument(codec, s)))
  }

  function BundleDocument(codec: TextCodec, b: GenerationBundle, now: Instant): Json
    requires ValidBundle(b)
  {
    JObject(BundleFields(
      b.order, Packed(codec, SnapshotResponse(b.snapshot)), PrintAll(InventoryWriter(codec), b.inventories),
      PackedState(codec, PruneLedger(b.state, now)), Packed(codec, SnapshotResponse(b.lastGood)),
      PrintAll(Wire.StringValue, b.lastGoodKeys)))
  }

  function EncodeGeneration(codec: TextCodec, b: GenerationBundle, now: Instant): Decoded<Json> {
    if !ValidBundle(b) then Err(Unreadable) else Ok(BundleDocument(codec, b, now))
  }

  // Reading

  function Unpacked(codec: TextCodec, value: Json): Decoded<Json> {
    if value.JString? && codec.unpack(value.text).Some? then Ok(codec.unpack(value.text).value) else Err(Unreadable)
  }

  function DecodeResponse(codec: TextCodec, value: Json): Decoded<Response> {
    var document :- Unpacked(codec, value);
    var r := Wire.ParseResponse(codec, document);
    if r.Ok? then Ok(r.value) else Err(Unreadable)
  }

  function DecodeSnapshot(codec: TextCodec, value: Json): Decoded<Snapshot> {
    var r :- DecodeResponse(codec, value);
    if r.SnapshotResponse? then Ok(r.snapshot) else Err(Unreadable)
  }

  function InventoryReader(codec: TextCodec): Json -> Decoded<Inventory> {
    (value: Json) => DecodeInventory(codec, value)
  }

  function DecodeInventory(codec: TextCodec, value: Json): Decoded<Inventory> {
    var r :- DecodeResponse(codec, value);
    if r.InventoryResponse? then Ok(r.inventory) else Err(Unreadable)
  }

  function DecodePackedState(codec: TextCodec, value: Json): Decoded<PersistentState> {
    var document :- Unpacked(codec, value);
    match StateCodec.DecodeState(codec, document)
    case Ok(s) => Ok(s)
    case Err(Corrupt) => Err(Unreadable)
    case Err(Incompatible(version)) => Err(NewerState(version))
  }

  function Natural(value: Json): Decoded<int> {
    if value.JInt? && value.number >= 0 then Ok(value.number) else Err(Unreadable)
  }

  function Texts(value: Json): Decoded<seq<string>> {
    if !value.JArray? then Err(Unreadable)
    else
      var texts := ParseAll(Wire.Text, value.items);
      if texts.Ok? then Ok(texts.value) else Err(Unreadable)
  }

  function Elements(value: Json): Decoded<seq<Json>> {
    if value.JArray? then Ok(value.items) else Err(Unreadable)
  }

  function Checked(b: GenerationBundle): (r: Decoded<GenerationBundle>)
    ensures r.Ok? ==> ValidBundle(r.value)
  {
    if ValidBundle(b) then Ok(b) else Err(Unreadable)
  }

  function InventoriesOf(codec: TextCodec, value: Json): Decoded<seq<Inventory>> {
    var values :- Elements(value);
    ParseAll(InventoryReader(codec), values)
  }

  // The bundle of parts read in order; the first that failed decides the error.
  function Assembled(snapshot: Decoded<Snapshot>, inventories: Decoded<seq<Inventory>>, state: Decoded<PersistentState>,
                     lastGood: Decoded<Snapshot>, keys: Decoded<seq<string>>, order: Decoded<int>)
    : (r: Decoded<GenerationBundle>)
    ensures r.Ok? ==> ValidBundle(r.value)
  {
    var current :- snapshot;
    var listed :- inventories;
    var stored :- state;
    var good :- lastGood;
    var known :- keys;
    var number :- order;
    Checked(GenerationBundle(number, current, listed, stored, good, known))
  }

  function DecodeFields(codec: TextCodec, fields: map<string, Json>): (r: Decoded<GenerationBundle>)
    requires fields.Keys == GENERATION_FIELDS
    ensures r.Ok? ==> ValidBundle(r.value)
  {
    var version :- Natural(fields["schemaVersion"]);
    if version != GENERATION_SCHEMA_VERSION then Err(Unreadable)
    else
      Assembled(DecodeSnapshot(codec, fields["snapshot"]), InventoriesOf(codec, fields["inventories"]),
                DecodePackedState(codec, fields["state"]), DecodeSnapshot(codec, fields["lastGood"]),
                Texts(fields["lastGoodKeys"]), Natural(fields["order"]))
  }

  function DecodeGeneration(codec: TextCodec, value: Json): (r: Decoded<GenerationBundle>)
    ensures r.Ok? ==> ValidBundle(r.value)
  {
    if !value.JObject? || value.fields.Keys != GENERATION_FIELDS then Err(Unreadable)
    else DecodeFields(codec, value.fields)
  }

  // Round trip

  predicate Unpacks(codec: TextCodec, document: Json) {
    codec.unpack(codec.pack(document)) == Some(document)
  }

  // What a bundle packs, its valid responses and its valid state, unpacks again.
  ghost predicate PacksDocuments(codec: TextCodec) {
    && (forall r: Response :: ValidResponse(r) ==> Unpacks(codec, Wire.ResponseValue(codec, r).value))
    && (forall s: PersistentState :: ValidState(s) ==> Unpacks(codec, StateCodec.StateDocument(codec, s)))
  }

  lemma PackedRead(codec: TextCodec, r: Response)
    requires Faithful(codec) && PacksDocuments(codec) && ValidResponse(r)
    ensures DecodeResponse(codec, Packed(codec, r)) == Ok(r)
  {
    assert Unpacks(codec, Wire.ResponseValue(codec, r).value);
    WireRoundTrip.ResponseRoundTrip(codec, r);
  }

  lemma SnapshotRead(codec: TextCodec, snapshot: Snapshot)
    requires Faithful(codec) && PacksDocuments(codec) && ValidResponse(SnapshotResponse(snapshot))
    ensures DecodeSnapshot(codec, Packed(codec, SnapshotResponse(snapshot))) == Ok(snapshot)
  {
    PackedRead(codec, SnapshotResponse(snapshot));
  }

  lemma InventoryRead(codec: TextCodec, inventory: Inventory)
    requires Faithful(codec) && PacksDocuments(codec) && ValidResponse(InventoryResponse(inventory))
    ensures DecodeInventory(codec, Packed(codec, InventoryResponse(inventory))) == Ok(inventory)
  {
    PackedRead(codec, InventoryResponse(inventory));
  }

  lemma InventoriesRead(codec: TextCodec, inventories: seq<Inventory>)
    requires Faithful(codec) && PacksDocuments(codec)
    requires forall i :: i in inventories ==> ValidResponse(InventoryResponse(i))
    ensures ParseAll(InventoryReader(codec), PrintAll(InventoryWriter(codec), inventories)) == Ok(inventories)
  {
    forall i | i in inventories
      ensures InventoryReader(codec)(InventoryWriter(codec)(i)) == Ok(i)
    {
      InventoryRead(codec, i);
    }
    ParsePrinted(InventoryWriter(codec), InventoryReader(codec), inventories);
  }

  lemma PackedStateRead(codec: TextCodec, s: PersistentState)
    requires Faithful(codec) && PacksDocuments(codec) && ValidState(s)
    ensures DecodePackedState(codec, PackedState(codec, s)) == Ok(s)
  {
    StateCodec.DocumentRead(codec, s);
    assert Unpacks(codec, StateCodec.StateDocument(codec, s));
  }

  lemma BundleLookups(order: int, snapshot: Json, inventories: seq<Json>, state: Json, lastGood: Json, keys: seq<Json>)
    ensures var fields := BundleFields(order, snapshot, inventories, state, lastGood, keys);
            && fields.Keys == GENERATION_FIELDS
            && fields["schemaVersion"] == JInt(GENERATION_SCHEMA_VERSION) && fields["order"] == JInt(order)
            && fields["snapshot"] == snapshot && fields["inventories"] == JArray(inventories)
            && fields["state"] == state && fields["lastGood"] == lastGood && fields["lastGoodKeys"] == JArray(keys)
  {
  }

  lemma AssembledValid(b: GenerationBundle)
    requires ValidBundle(b)
    ensures Assembled(Ok(b.snapshot), Ok(b.inventories), Ok(b.state), Ok(b.lastGood), Ok(b.lastGoodKeys), Ok(b.order)) == Ok(b)
  {
  }

  lemma BundleFromFields(codec: TextCodec, fields: map<string, Json>, b: GenerationBundle)
    requires fields.Keys == GENERATION_FIELDS && ValidBundle(b)
    requires fields["schemaVersion"] == JInt(GENERATION_SCHEMA_VERSION) && Natural(fields["order"]) == Ok(b.order)
    requires DecodeSnapshot(codec, fields["snapshot"]) == Ok(b.snapshot)
    requires InventoriesOf(codec, fields["inventories"]) == Ok(b.inventories)
    requires DecodePackedState(codec, fields["state"]) == Ok(b.state)
    requires DecodeSnapshot(codec, fields["lastGood"]) == Ok(b.lastGood)
    requires Texts(fields["lastGoodKeys"]) == Ok(b.lastGoodKeys)
    ensures DecodeGeneration(codec, JObject(fields)) == Ok(b)
  {
    AssembledValid(b);
  }

  // A valid bundle is written, and reads back as itself with its ledger pruned at
  // the time of writing.
  lemma GenerationRoundTrip(codec: TextCodec, b: GenerationBundle, now: Instant)
    requires Faithful(codec) && PacksDocuments(codec)
    ensures EncodeGeneration(codec, b, now).Ok? <==> ValidBundle(b)
    ensures ValidBundle(b) ==>
              DecodeGeneration(codec, EncodeGeneration(codec, b, now).value) == Ok(b.(state := PruneLedger(b.state, now)))
  {
    if ValidBundle(b) {
      SnapshotRead(codec, b.snapshot);
      SnapshotRead(codec, b.lastGood);
      InventoriesRead(codec, b.inventories);
      PruneKeepsValid(b.state, now);
      PackedStateRead(codec, PruneLedger(b.state, now));
      ParsePrinted(Wire.StringValue, Wire.Text, b.lastGoodKeys);
      BundleRead(codec, b.(state := PruneLedger(b.state, now)),
                 Packed(codec, SnapshotResponse(b.snapshot)), PrintAll(InventoryWriter(codec), b.inventories),
                 PackedState(codec, PruneLedger(b.state, now)), Packed(codec, SnapshotResponse(b.lastGood)),
                 PrintAll(Wire.StringValue, b.lastGoodKeys));
    }
  }

  lemma BundleRead(codec: TextCodec, b: GenerationBundle, snapshot: Json, inventories: seq<Json>, state: Json,
                   lastGood: Json, keys: seq<Json>)
    requires ValidBundle(b)
    requires DecodeSnapshot(codec, snapshot) == Ok(b.snapshot) && DecodeSnapshot(codec, lastGood) == Ok(b.lastGood)
    requires ParseAll(InventoryReader(codec), inventories) == Ok(b.inventories)
    requires DecodePackedState(codec, state) == Ok(b.state)
    requires ParseAll(Wire.Text, keys) == Ok(b.lastGoodKeys)
    ensures DecodeGeneration(codec, JObject(BundleFields(b.order, snapshot, inventories, state, lastGood, keys))) == Ok(b)
  {
    BundleLookups(b.order, snapshot, inventories, state, lastGood, keys);
    BundleFromFields(codec, BundleFields(b.order, snapshot, inventories, state, lastGood, keys), b);
  }
}
