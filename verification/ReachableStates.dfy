// Every state the helper's operations produce is one it will agree to write.
module ReachableStates {
  import opened Wrappers
  import opened Records
  import opened Sorting
  import opened LedgerPruning
  import opened StateValidation
  import opened NotificationBatch
  import opened StateCodec
  import CommandLine
  import DecimalText
  import JsonTree
  import Stars
  import ScanAssembly
  import ScanGeneration
  import ScanResolution

  datatype Operation =
    | Click(event: Stars.WatchEvent)
    | SetStar(itemId: string, mode: WatchMode, condition: Option<SecurityFixCondition>, inventory: seq<Stars.CachedItem>)
    | Scan(inputs: ScanGeneration.ScanInputs, scannedAt: Instant)
    | Claim(kind: NotificationKind, candidates: seq<Candidate>, claimedAt: Instant, token: string)
    | Complete(batch: Batch, result: CommandResult)
    | Prune(prunedAt: Instant)

  // Tokens are never empty, and a condition is attached only to a canonical Arch item.
  predicate Allowed(op: Operation) {
    match op
    case Claim(_, _, _, token) => token != ""
    case SetStar(itemId, mode, condition, _) =>
      condition.Some? ==> ValidCondition(condition.value) && (mode.Temporary? ==> IsArchItemId(itemId))
    case Scan(inputs, _) => |inputs| == |ScanResolution.SLICES|
    case _ => true
  }

  // The state an operation writes; a refused click writes nothing.
  function Perform(s: PersistentState, op: Operation): PersistentState
    requires ValidState(s) && Allowed(op)
  {
    match op
    case Click(event) => (match Stars.Transition(s, event) case Ok(next) => next case Err(_) => s)
    case SetStar(itemId, mode, condition, inventory) =>
      (match Stars.SetStar(s, itemId, mode, condition, inventory) case Ok(next) => next case Err(_) => s)
    case Scan(inputs, now) => s.(sources := ScanAssembly.Metadata(s.sources, inputs, now))
    case Claim(kind, candidates, now, token) => s.(ledger := ReserveLedger(s.ledger, kind, candidates, now, token))
    case Complete(batch, result) => s.(ledger := CompleteLedger(s.ledger, batch, result))
    case Prune(now) => PruneLedger(s, now)
  }

  predicate LeasesValid(ledger: seq<LedgerEntry>) {
    forall e :: e in ledger ==> ValidLease(e)
  }

  lemma {:induction false} UpsertLeasesValid(ledger: seq<LedgerEntry>, claimed: seq<Candidate>, now: Instant,
                                             token: string)
    requires LeasesValid(ledger) && token != ""
    ensures LeasesValid(UpsertLeases(ledger, claimed, now, token))
  {
    if claimed != [] {
      var last := |claimed| - 1;
      UpsertLeasesValid(ledger, claimed[..last], now, token);
      UpsertValid(UpsertLeases(ledger, claimed[..last], now, token), LeaseEntry(claimed[last].fingerprint, now, token));
    }
  }

  lemma UpsertValid(ledger: seq<LedgerEntry>, updated: LedgerEntry)
    requires LeasesValid(ledger) && ValidLease(updated)
    ensures LeasesValid(Upsert(ledger, updated))
  {
  }

  lemma SuppressedValid(ledger: seq<LedgerEntry>, claimed: seq<Candidate>)
    requires LeasesValid(ledger)
    ensures LeasesValid(SuppressSuperseded(ledger, claimed))
  {
    var r := SuppressSuperseded(ledger, claimed);
    forall e | e in r
      ensures ValidLease(e)
    {
      var i :| 0 <= i < |r| && r[i] == e;
      assert ledger[i] in ledger;
    }
  }

  lemma ReserveValid(ledger: seq<LedgerEntry>, kind: NotificationKind, candidates: seq<Candidate>, now: Instant,
                     token: string)
    requires ValidLedger(ledger) && token != ""
    ensures ValidLedger(ReserveLedger(ledger, kind, candidates, now, token))
  {
    ReserveUnique(ledger, kind, candidates, now, token);
    var claimed := ClaimableOf(ledger, candidates, now);
    SuppressedValid(ledger, claimed);
    UpsertLeasesValid(SuppressSuperseded(ledger, claimed), claimed, now, token);
    UpsertValid(UpsertLeases(SuppressSuperseded(ledger, claimed), claimed, now, token),
                LeaseEntry(OwnerFingerprint(kind), now, token));
  }

  lemma CompleteValid(ledger: seq<LedgerEntry>, batch: Batch, result: CommandResult)
    requires ValidLedger(ledger)
    ensures ValidLedger(CompleteLedger(ledger, batch, result))
  {
    CompleteUnique(ledger, batch, result);
    if OwnsOwner(ledger, batch.kind, batch.leaseToken) {
      var kept := Filter(NotOwner(batch.kind), ledger);
      var r := CompleteLedger(ledger, batch, result);
      forall e | e in r
        ensures ValidLease(e)
      {
        var i :| 0 <= i < |r| && r[i] == e;
        assert kept[i] in kept && kept[i] in ledger;
      }
    }
  }

  lemma SourcesDiffer(i: nat, j: nat)
    requires i < j < |ScanAssembly.SOURCES|
    ensures ScanAssembly.SOURCES[i] != ScanAssembly.SOURCES[j]
  {
  }

  lemma InSourceOrder(after: seq<SourceMetadata>)
    requires |after| == |ScanAssembly.SOURCES|
    requires forall i :: 0 <= i < |after| ==> after[i].source == ScanAssembly.SOURCES[i] && after[i].failureCount >= 0
    ensures UniqueSources(after) && ScanAssembly.CountsValid(after)
  {
    forall i, j | 0 <= i < j < |after|
      ensures after[i].source != after[j].source
    {
      SourcesDiffer(i, j);
    }
  }

  lemma MetadataValid(sources: seq<SourceMetadata>, inputs: ScanGeneration.ScanInputs, now: Instant)
    requires |inputs| == |ScanResolution.SLICES| && ScanAssembly.CountsValid(sources)
    ensures UniqueSources(ScanAssembly.Metadata(sources, inputs, now))
    ensures ScanAssembly.CountsValid(ScanAssembly.Metadata(sources, inputs, now))
  {
    InSourceOrder(ScanAssembly.Metadata(sources, inputs, now));
  }

  // One operation keeps the state writable.
  lemma PerformValid(s: PersistentState, op: Operation)
    requires ValidState(s) && Allowed(op)
    ensures ValidState(Perform(s, op))
  {
    match op {
      case Click(event) =>
        if Stars.Transition(s, event).Ok? {
          Stars.TransitionValid(s, event);
        }
      case SetStar(itemId, mode, condition, inventory) =>
        if Stars.SetStar(s, itemId, mode, condition, inventory).Ok? {
          Stars.SetStarValidIff(s, itemId, mode, condition, inventory);
        }
      case Scan(inputs, now) => MetadataValid(s.sources, inputs, now);
      case Claim(kind, candidates, now, token) => ReserveValid(s.ledger, kind, candidates, now, token);
      case Complete(batch, result) => CompleteValid(s.ledger, batch, result);
      case Prune(now) => PruneKeepsValid(s, now);
    }
  }

  datatype Operations = Nothing | AndThen(earlier: Operations, op: Operation)

  predicate AllAllowed(ops: Operations) {
    ops.AndThen? ==> AllAllowed(ops.earlier) && Allowed(ops.op)
  }

  // The state after a sequence of operations on the empty state.
  function After(ops: Operations): (s: PersistentState)
    requires AllAllowed(ops)
    ensures ValidState(s)
  {
    match ops
    case Nothing => EMPTY_STATE
    case AndThen(earlier, op) =>
      PerformValid(After(earlier), op);
      Perform(After(earlier), op)
  }

  // Every state reached from the empty one is valid, so it is written, and what is
  // read back is that state pruned.
  lemma ReachableRoundTrip(codec: JsonTree.TextCodec, ops: Operations, now: Instant)
    requires JsonTree.Faithful(codec) && AllAllowed(ops)
    ensures ValidState(After(ops)) && EncodeState(codec, After(ops), now).Ok?
    ensures DecodeState(codec, EncodeState(codec, After(ops), now).value) == Ok(PruneLedger(After(ops), now))
  {
    StateRoundTrip(codec, After(ops), now);
  }

  // The restriction on conditions is needed: one attached to an item that is not a
  // canonical Arch item gives a state that is not written.
  lemma ConditionRefused(s: PersistentState, itemId: string, condition: SecurityFixCondition,
                         inventory: seq<Stars.CachedItem>, codec: JsonTree.TextCodec, now: Instant)
    requires ValidState(s) && ValidCondition(condition) && !IsArchItemId(itemId)
    requires Stars.SetStar(s, itemId, Temporary, Some(condition), inventory).Ok?
    ensures EncodeState(codec, Stars.SetStar(s, itemId, Temporary, Some(condition), inventory).value, now) == Err(Corrupt)
  {
    Stars.SetStarValidIff(s, itemId, Temporary, Some(condition), inventory);
  }

  const ODD_ITEM := "arch:-x"
  const ODD_CVE := "CVE-2024-0001"
  const ODD_CONDITION := SecurityFixCondition("AVG-1", [ODD_CVE], "1")
  const ODD_INVENTORY := [Stars.CachedItem(ODD_ITEM, ItemSource.Arch, Some("0"), None, true)]
  const ODD_ARGUMENTS := ["set-star", "--item-id", ODD_ITEM, "--mode", "temporary", "--security-advisory", "AVG-1",
                          "--fixed-version", "1", "--cve-ids", ODD_CVE]

  // The command line does let such a command through: it accepts any identifier that
  // starts with arch:. On the empty state the click succeeds and nothing can be written.
  lemma OddArchItemRefused(codec: JsonTree.TextCodec, now: Instant)
    ensures CommandLine.ParseCommand(ODD_ARGUMENTS)
         == Ok(CommandLine.SetStarCommand(ODD_ITEM, Temporary, Some(ODD_CONDITION)))
    ensures ValidState(EMPTY_STATE) && Stars.SetStar(EMPTY_STATE, ODD_ITEM, Temporary, Some(ODD_CONDITION), ODD_INVENTORY).Ok?
    ensures EncodeState(codec, Stars.SetStar(EMPTY_STATE, ODD_ITEM, Temporary, Some(ODD_CONDITION), ODD_INVENTORY).value, now)
         == Err(Corrupt)
  {
    OddConditionValid();
    OddCommandRead();
    OddClick();
    ConditionRefused(EMPTY_STATE, ODD_ITEM, ODD_CONDITION, ODD_INVENTORY, codec, now);
  }

  lemma OddConditionValid()
    ensures ValidCondition(ODD_CONDITION) && !IsArchItemId(ODD_ITEM) && "arch:" <= ODD_ITEM
  {
    assert ODD_ITEM[5] == '-';
    assert "AVG-1"[..4] == "AVG-" && "AVG-1"[4..] == "1";
    assert ODD_CVE[..4] == "CVE-" && ODD_CVE[4..8] == "2024" && ODD_CVE[9..] == "0001";
  }

  lemma OddCommandRead()
    ensures CommandLine.ParseCommand(ODD_ARGUMENTS)
         == Ok(CommandLine.SetStarCommand(ODD_ITEM, Temporary, Some(ODD_CONDITION)))
  {
    OddConditionRead();
    ConditionalCommandRead(ODD_ITEM, "AVG-1", "1", ODD_CVE, ODD_CONDITION);
  }

  lemma OddConditionRead()
    ensures CommandLine.SecurityCondition("AVG-1", ODD_CVE, "1") == Ok(ODD_CONDITION)
  {
    OddConditionValid();
    CommandLine.CveIdsHaveNoComma(ODD_CVE);
    DecimalText.SplitJoined([ODD_CVE]);
    assert DecimalText.Joined([ODD_CVE]) == ODD_CVE;
  }

  // The prefix is all that the command line asks of the item of a conditional star.
  lemma ConditionalCommandRead(itemId: string, advisory: string, fixedVersion: string, cveIds: string,
                               condition: SecurityFixCondition)
    requires "arch:" <= itemId && |itemId| <= 128
    requires CommandLine.SecurityCondition(advisory, cveIds, fixedVersion) == Ok(condition)
    ensures CommandLine.ParseCommand(["set-star", "--item-id", itemId, "--mode", "temporary", "--security-advisory", advisory,
                                      "--fixed-version", fixedVersion, "--cve-ids", cveIds])
         == Ok(CommandLine.SetStarCommand(itemId, Temporary, Some(condition)))
  {
    var arguments := ["set-star", "--item-id", itemId, "--mode", "temporary", "--security-advisory", advisory,
                      "--fixed-version", fixedVersion, "--cve-ids", cveIds];
    assert arguments[1..] == ["--item-id", itemId, "--mode", "temporary", "--security-advisory", advisory,
                              "--fixed-version", fixedVersion, "--cve-ids", cveIds];
  }

  lemma OddClick()
    ensures Stars.SetStar(EMPTY_STATE, ODD_ITEM, Temporary, Some(ODD_CONDITION), ODD_INVENTORY).Ok?
  {
    var event := Stars.StarClick(ODD_ITEM, ODD_INVENTORY, true);
    Stars.FirstClick(EMPTY_STATE, event, ODD_INVENTORY[0]);
    var clicked := Stars.Transition(EMPTY_STATE, event).value;
    assert |clicked.watches| == 1 && clicked.watches[0].mode.Temporary? && clicked.watches[0].itemId == ODD_ITEM;
    Stars.AttachFinds(clicked.watches, ODD_ITEM, Some(ODD_CONDITION));
  }
}
