// What the two stored files say together: generation.json, when it can be read,
// overrides state.json.
module StorageFiles {
  import opened Wrappers
  import opened Records
  import opened LedgerPruning
  import opened StateValidation
  import opened JsonTree
  import StateCodec
  import GenerationCodec

  // Malformed stands for bytes that are not a JSON document.
  datatype Content = Malformed | Document(json: Json)

  datatype Files = Files(state: Option<Content>, generation: Option<Content>)

  // The documents' formats, as the storage code calls them.
  datatype Format = Format(
    encodeState: (PersistentState, Instant) -> StateCodec.Read<Json>,
    decodeState: Json -> StateCodec.Read<PersistentState>,
    encodeGeneration: (GenerationBundle, Instant) -> GenerationCodec.Decoded<Json>,
    decodeGeneration: Json -> GenerationCodec.Decoded<GenerationBundle>,
    validBundle: GenerationBundle -> bool)

  ghost predicate LawfulState(f: Format) {
    && (forall s: PersistentState, t: Instant :: f.encodeState(s, t).Ok? <==> ValidState(s))
    && (forall s: PersistentState, t: Instant :: f.encodeState(s, t).Ok? ==>
          f.decodeState(f.encodeState(s, t).value) == Ok(PruneLedger(s, t)))
    && (forall j: Json :: f.decodeState(j).Ok? ==> ValidState(f.decodeState(j).value))
  }

  ghost predicate LawfulGeneration(f: Format) {
    && (forall b: GenerationBundle, t: Instant :: f.encodeGeneration(b, t).Ok? <==> f.validBundle(b))
    && (forall b: GenerationBundle, t: Instant :: f.encodeGeneration(b, t).Ok? ==>
          f.decodeGeneration(f.encodeGeneration(b, t).value) == Ok(b.(state := PruneLedger(b.state, t))))
    && (forall j: Json :: f.decodeGeneration(j).Ok? ==> f.validBundle(f.decodeGeneration(j).value))
  }

  ghost predicate LawfulBundles(f: Format) {
    && (forall b: GenerationBundle :: f.validBundle(b) ==> ValidState(b.state) && b.order >= 0)
    && (forall b: GenerationBundle, s: PersistentState :: f.validBundle(b) && ValidState(s) ==> f.validBundle(b.(state := s)))
    && (forall b: GenerationBundle, s: PersistentState :: f.validBundle(b.(state := s)) ==> ValidState(s))
  }

  ghost predicate Lawful(f: Format) {
    LawfulState(f) && LawfulGeneration(f) && LawfulBundles(f)
  }

  function HelperFormat(codec: TextCodec): Format {
    Format((s: PersistentState, t: Instant) => StateCodec.EncodeState(codec, s, t),
           (j: Json) => StateCodec.DecodeState(codec, j),
           (b: GenerationBundle, t: Instant) => GenerationCodec.EncodeGeneration(codec, b, t),
           (j: Json) => GenerationCodec.DecodeGeneration(codec, j),
           (b: GenerationBundle) => GenerationCodec.ValidBundle(b))
  }

  // The helper's own formats have the properties the storage relies on.
  lemma HelperFormatLawful(codec: TextCodec)
    requires Faithful(codec) && GenerationCodec.PacksDocuments(codec)
    ensures Lawful(HelperFormat(codec))
  {
    HelperStateLawful(codec);
    HelperGenerationLawful(codec);
    HelperBundlesLawful(codec);
  }

  lemma HelperBundlesLawful(codec: TextCodec)
    ensures LawfulBundles(HelperFormat(codec))
  {
    var f := HelperFormat(codec);
    assert forall b: GenerationBundle :: f.validBundle(b) == GenerationCodec.ValidBundle(b);
  }

  lemma HelperStateLawful(codec: TextCodec)
    requires Faithful(codec)
    ensures LawfulState(HelperFormat(codec))
  {
    var f := HelperFormat(codec);
    forall s: PersistentState, t: Instant
      ensures f.encodeState(s, t).Ok? <==> ValidState(s)
      ensures f.encodeState(s, t).Ok? ==> f.decodeState(f.encodeState(s, t).value) == Ok(PruneLedger(s, t))
    {
      StateCodec.StateRoundTrip(codec, s, t);
    }
    forall j: Json
      ensures f.decodeState(j).Ok? ==> ValidState(f.decodeState(j).value)
    {
      StateCodec.DecodedIsValid(codec, j);
    }
  }

  lemma HelperGenerationLawful(codec: TextCodec)
    requires Faithful(codec) && GenerationCodec.PacksDocuments(codec)
    ensures LawfulGeneration(HelperFormat(codec))
  {
    var f := HelperFormat(codec);
    forall b: GenerationBundle, t: Instant
      ensures f.encodeGeneration(b, t).Ok? <==> f.validBundle(b)
      ensures f.encodeGeneration(b, t).Ok? ==>
                f.decodeGeneration(f.encodeGeneration(b, t).value) == Ok(b.(state := PruneLedger(b.state, t)))
    {
      GenerationCodec.GenerationRoundTrip(codec, b, t);
    }
    forall j: Json
      ensures f.decodeGeneration(j).Ok? ==> f.validBundle(f.decodeGeneration(j).value)
    {
      assert f.decodeGeneration(j) == GenerationCodec.DecodeGeneration(codec, j);
    }
  }

  // Reading the files

  // The state in state.json; unreadable bytes are quarantined and count as empty.
  // Err carries the schema version of a state that is too new.
  function ReadState(f: Format, content: Option<Content>): Result<PersistentState, int> {
    match content
    case None => Ok(EMPTY_STATE)
    case Some(Malformed) => Ok(EMPTY_STATE)
    case Some(Document(j)) =>
      match f.decodeState(j)
      case Ok(s) => Ok(s)
      case Err(Corrupt) => Ok(EMPTY_STATE)
      case Err(Incompatible(version)) => Err(version)
  }

  // The bundle in generation.json; an unreadable one is discarded and counts as absent.
  function ReadGeneration(f: Format, content: Option<Content>): Result<Option<GenerationBundle>, int> {
    match content
    case None => Ok(None)
    case Some(Malformed) => Ok(None)
    case Some(Document(j)) =>
      match f.decodeGeneration(j)
      case Ok(b) => Ok(Some(b))
      case Err(Unreadable) => Ok(None)
      case Err(NewerState(version)) => Err(version)
  }

  // state.json is there, nothing overrides it, and it cannot be made out.
  predicate UnreadableState(f: Format, files: Files) {
    && ReadGeneration(f, files.generation) == Ok(None)
    && files.state.Some?
    && (files.state.value.Malformed? || f.decodeState(files.state.value.json) == Err(StateCodec.Corrupt))
  }

  function StoredState(f: Format, files: Files): Result<PersistentState, int> {
    match ReadGeneration(f, files.generation)
    case Err(version) => Err(version)
    case Ok(Some(b)) => Ok(b.state)
    case Ok(None) => ReadState(f, files.state)
  }

  // The state that loading at a time gives.
  function StateAt(f: Format, files: Files, t: Instant): Result<PersistentState, int> {
    match StoredState(f, files)
    case Err(version) => Err(version)
    case Ok(s) => Ok(PruneLedger(s, t))
  }

  function Stateless(b: GenerationBundle): GenerationBundle {
    b.(state := EMPTY_STATE)
  }

  // Everything in the stored generation except the state it carries.
  function StoredGeneration(f: Format, files: Files): Option<GenerationBundle> {
    var read := ReadGeneration(f, files.generation);
    if read.Ok? && read.value.Some? then Some(Stateless(read.value.value)) else None
  }

  function StoredOrder(f: Format, files: Files): int {
    var g := StoredGeneration(f, files);
    if g.None? then -1 else g.value.order
  }

  // Two sets of files that every load from a time on cannot tell apart.
  ghost predicate SameView(f: Format, a: Files, b: Files, from: Instant) {
    && StoredGeneration(f, a) == StoredGeneration(f, b)
    && forall t :: from <= t ==> StateAt(f, a, t) == StateAt(f, b, t)
  }

  // Files that show a state, and a generation, in full to every load from a time on.
  ghost predicate Shows(f: Format, files: Files, s: PersistentState, g: Option<GenerationBundle>, from: Instant) {
    && StoredGeneration(f, files) == g
    && forall t :: from <= t ==> StateAt(f, files, t) == Ok(PruneLedger(s, t))
  }

  // Files in which removing generation.json changes nothing for the state.
  ghost predicate Mirrored(f: Format, files: Files, from: Instant) {
    forall t :: from <= t ==> StateAt(f, files, t) == StateAt(f, files.(generation := None), t)
  }

  // Content that an operation leaves: what was there, nothing, or a valid document.
  ghost predicate ValidOrKept(f: Format, before: Files, after: Files) {
    && (after.state == before.state || after.state.None?
        || (after.state.value.Document? && f.decodeState(after.state.value.json).Ok?))
    && (after.generation == before.generation || after.generation.None?
        || (after.generation.value.Document? && f.decodeGeneration(after.generation.value.json).Ok?))
  }

  // The effect of single file changes

  lemma PruneStateTwice(s: PersistentState, first: Instant, second: Instant)
    requires first <= second
    ensures PruneLedger(PruneLedger(s, first), second) == PruneLedger(s, second)
  {
    PruneTwice(s.ledger, first, second);
  }

  lemma EmptyPruned(t: Instant)
    ensures PruneLedger(EMPTY_STATE, t) == EMPTY_STATE
  {
  }

  // Once a bundle is in generation.json the files show it, whatever is in state.json.
  lemma GenerationWritten(f: Format, files: Files, b: GenerationBundle, at: Instant, from: Instant)
    requires Lawful(f) && f.encodeGeneration(b, at).Ok? && at <= from
    requires files.generation == Some(Document(f.encodeGeneration(b, at).value))
    ensures Shows(f, files, b.state, Some(Stateless(b)), from)
    ensures f.decodeGeneration(f.encodeGeneration(b, at).value).Ok?
  {
    assert ReadGeneration(f, files.generation) == Ok(Some(b.(state := PruneLedger(b.state, at))));
    forall t | from <= t
      ensures StateAt(f, files, t) == Ok(PruneLedger(b.state, t))
    {
      PruneStateTwice(b.state, at, t);
    }
  }

  // With no readable generation, the files show the state in state.json.
  lemma StateWritten(f: Format, files: Files, s: PersistentState, at: Instant, from: Instant)
    requires Lawful(f) && f.encodeState(s, at).Ok? && at <= from
    requires files.state == Some(Document(f.encodeState(s, at).value))
    ensures f.decodeState(f.encodeState(s, at).value).Ok?
    ensures forall t :: from <= t ==> StateAt(f, files.(generation := None), t) == Ok(PruneLedger(s, t))
    ensures ReadGeneration(f, files.generation) == Ok(None) ==> Shows(f, files, s, None, from)
  {
    assert ReadState(f, files.state) == Ok(PruneLedger(s, at));
    forall t | from <= t
      ensures PruneLedger(PruneLedger(s, at), t) == PruneLedger(s, t)
    {
      PruneStateTwice(s, at, t);
    }
  }

  // Quarantining an unreadable state shows the same.
  lemma Quarantined(f: Format, files: Files, from: Instant)
    requires ReadState(f, files.state) == Ok(EMPTY_STATE)
    ensures SameView(f, files, files.(state := None), from)
    ensures ReadGeneration(f, files.generation) == Ok(None) ==> StoredState(f, files) == Ok(EMPTY_STATE)
  {
  }

  // Storing a pruned state shows the same to every later load.
  lemma PrunedShowsSame(f: Format, before: Files, after: Files, s: PersistentState, at: Instant, from: Instant)
    requires StoredState(f, before) == Ok(s) && at <= from
    requires Shows(f, after, PruneLedger(s, at), StoredGeneration(f, before), from)
    ensures SameView(f, before, after, from)
  {
    forall t | from <= t
      ensures StateAt(f, before, t) == StateAt(f, after, t)
    {
      PruneStateTwice(s, at, t);
    }
  }

  // state.json holds a state that is shown as soon as generation.json is gone.
  ghost predicate Backs(f: Format, files: Files, s: PersistentState, from: Instant) {
    forall t :: from <= t ==> StateAt(f, files.(generation := None), t) == Ok(PruneLedger(s, t))
  }

  lemma BackedShown(f: Format, files: Files, s: PersistentState, g: Option<GenerationBundle>, from: Instant)
    requires Backs(f, files, s, from) && Shows(f, files, s, g, from)
    ensures Mirrored(f, files, from)
  {
  }

  lemma BackedAlone(f: Format, files: Files, s: PersistentState, from: Instant)
    requires Backs(f, files, s, from) && ReadGeneration(f, files.generation) == Ok(None)
    ensures Shows(f, files, s, None, from)
  {
    forall t | from <= t
      ensures StateAt(f, files, t) == Ok(PruneLedger(s, t))
    {
      assert StateAt(f, files, t) == StateAt(f, files.(generation := None), t);
    }
  }

  lemma ShownBehind(f: Format, files: Files, after: Files, s: PersistentState, g: GenerationBundle, from: Instant,
                    later: Instant)
    requires Shows(f, files, s, Some(g), from) && from <= later
    requires after.generation == files.generation
    ensures Shows(f, after, s, Some(g), later)
  {
    forall t | later <= t
      ensures StateAt(f, after, t) == Ok(PruneLedger(s, t))
    {
      assert StateAt(f, after, t) == StateAt(f, files, t);
    }
  }

  lemma SameAfterDiscard(f: Format, before: Files, loaded: Files, from: Instant)
    requires loaded == before
          || (ReadGeneration(f, before.generation) == Ok(None) && loaded == before.(generation := None))
    ensures SameView(f, before, loaded, from) && StoredGeneration(f, loaded) == StoredGeneration(f, before)
    ensures ReadGeneration(f, loaded.generation) == ReadGeneration(f, before.generation)
  {
  }
}
