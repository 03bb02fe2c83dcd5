// Star clicks and source scans as transitions of the watch list.
module Stars {
  import opened Wrappers
  import opened Records
  import opened Sorting
  import opened LedgerPruning
  import opened StateValidation
  import EnumText

  datatype CachedItem = CachedItem(
    itemId: string, source: ItemSource, installedFingerprint: Option<string>,
    candidateFingerprint: Option<string>, watchable: bool)

  datatype WatchEvent =
    | StarClick(itemId: string, inventory: seq<CachedItem>, requireCurrentInventory: bool)
    | FreshSourceScan(source: ItemSource, items: seq<CachedItem>, confirmedRemoved: set<string>)
    | StaleSourceScan
    | FailedSourceScan
    | InvalidSourceScan

  datatype TransitionError = NotWatchable | OffWatch | ModeMismatch

  type Transitioned = Result<PersistentState, TransitionError>

  function SourcePrefix(source: ItemSource): string {
    EnumText.ItemSourceText(source) + ":"
  }

  function WatchPrefix(itemId: string): string {
    "watch-v1:" + itemId + ":"
  }

  function FindWatch(watches: seq<WatchRecord>, itemId: string): (r: Option<WatchRecord>)
    ensures r.Some? ==> r.value in watches && r.value.itemId == itemId
    ensures r.None? <==> forall w :: w in watches ==> w.itemId != itemId
  {
    if watches == [] then None
    else if watches[0].itemId == itemId then Some(watches[0])
    else FindWatch(watches[1..], itemId)
  }

  function FirstItem(items: seq<CachedItem>, itemId: string): (r: Option<CachedItem>)
    ensures r.Some? ==> r.value in items && r.value.itemId == itemId
  {
    if items == [] then None
    else if items[0].itemId == itemId then Some(items[0])
    else FirstItem(items[1..], itemId)
  }

  // A dictionary built from the source's items keeps the last one under an identifier.
  function LastItem(items: seq<CachedItem>, source: ItemSource, itemId: string): (r: Option<CachedItem>)
    ensures r.None? <==> forall i :: 0 <= i < |items| ==> !(items[i].source == source && items[i].itemId == itemId)
    ensures r.Some? ==>
              exists i :: 0 <= i < |items| && items[i] == r.value && r.value.source == source && r.value.itemId == itemId
                && forall j :: i < j < |items| ==> !(items[j].source == source && items[j].itemId == itemId)
  {
    if items == [] then None
    else
      var last := items[|items| - 1];
      if last.source == source && last.itemId == itemId then Some(last)
      else LastItem(items[..|items| - 1], source, itemId)
  }

  function ActiveUnder(prefix: string): LedgerEntry -> bool {
    (e: LedgerEntry) => !(e.IsActive() && prefix <= e.fingerprint)
  }

  function WithoutActiveReferences(ledger: seq<LedgerEntry>, itemId: string): seq<LedgerEntry> {
    Filter(ActiveUnder(WatchPrefix(itemId)), ledger)
  }

  function ReplaceWatch(watches: seq<WatchRecord>, before: WatchRecord, after: WatchRecord): (r: seq<WatchRecord>)
    ensures |r| == |watches|
    ensures forall i :: 0 <= i < |r| ==> r[i] == if watches[i] == before then after else watches[i]
  {
    Map((w: WatchRecord) => if w == before then after else w, watches)
  }

  function RemoveWatch(watches: seq<WatchRecord>, watch: WatchRecord): seq<WatchRecord> {
    Filter((w: WatchRecord) => w != watch, watches)
  }

  function ClickExisting(s: PersistentState, watch: WatchRecord, event: WatchEvent): Transitioned
    requires event.StarClick?
  {
    match watch.mode
    case Temporary =>
      if event.requireCurrentInventory
         && !(exists item :: item in event.inventory && item.itemId == watch.itemId && item.watchable) then
        Err(NotWatchable)
      else
        var permanent := PermanentWatch(watch.itemId);
        Ok(s.(watches := ReplaceWatch(s.watches, watch, permanent)))
    case Permanent =>
      Ok(s.(watches := RemoveWatch(s.watches, watch),
            ledger := WithoutActiveReferences(s.ledger, watch.itemId)))
    case Off => Err(OffWatch)
  }

  function Click(s: PersistentState, event: WatchEvent): Transitioned
    requires event.StarClick?
  {
    match FindWatch(s.watches, event.itemId)
    case None =>
      (match FirstItem(event.inventory, event.itemId)
       case None => Err(NotWatchable)
       case Some(item) =>
         if !item.watchable || item.installedFingerprint.None? then Err(NotWatchable)
         else
           Ok(s.(watches := s.watches
             + [WatchRecord(item.itemId, Temporary, item.installedFingerprint,
                            item.candidateFingerprint, item.candidateFingerprint.Some?, None)])))
    case Some(watch) => ClickExisting(s, watch, event)
  }

  // A watch after a fresh scan: kept, armed, or dropped (None).
  function ObserveWatch(w: WatchRecord, event: WatchEvent): Result<Option<WatchRecord>, TransitionError>
    requires event.FreshSourceScan?
  {
    match w.mode
    case Permanent => Ok(Some(w))
    case Temporary =>
      if !(SourcePrefix(event.source) <= w.itemId) then Ok(Some(w))
      else
        (match LastItem(event.items, event.source, w.itemId)
         case None => Ok(if w.itemId in event.confirmedRemoved then None else Some(w))
         case Some(item) =>
           if item.installedFingerprint.Some? && item.installedFingerprint != w.installedFingerprint then Ok(None)
           else if !w.armed && item.candidateFingerprint.Some? then
             Ok(Some(w.(candidateFingerprint := item.candidateFingerprint, armed := true)))
           else Ok(Some(w)))
    case Off => Err(OffWatch)
  }

  function ObserveAll(watches: seq<WatchRecord>, event: WatchEvent): Result<seq<WatchRecord>, TransitionError>
    requires event.FreshSourceScan?
  {
    if watches == [] then Ok([])
    else
      var first :- ObserveWatch(watches[0], event);
      var rest :- ObserveAll(watches[1..], event);
      Ok((if first.Some? then [first.value] else []) + rest)
  }

  function Transition(s: PersistentState, event: WatchEvent): Transitioned {
    match event
    case StarClick(_, _, _) => Click(s, event)
    case FreshSourceScan(_, _, _) =>
      var watches :- ObserveAll(s.watches, event);
      Ok(s.(watches := watches))
    case StaleSourceScan => Ok(s)
    case FailedSourceScan => Ok(s)
    case InvalidSourceScan => Ok(s)
  }

  // A transition leaves the ledger alone, except that un-starring a permanent
  // watch drops the pending entries under that watch's own reference.
  lemma TransitionLedger(s: PersistentState, event: WatchEvent)
    requires Transition(s, event).Ok?
    ensures var ledger := Transition(s, event).value.ledger;
            || ledger == s.ledger
            || (event.StarClick? && ledger == WithoutActiveReferences(s.ledger, event.itemId))
    ensures Transition(s, event).value.sources == s.sources
  {
  }

  // What un-starring drops: the pending entries whose fingerprint begins with the item's
  // reference, and nothing else.
  lemma DroppedIff(ledger: seq<LedgerEntry>, itemId: string, e: LedgerEntry)
    requires e in ledger
    ensures var reference := "watch-v1:" + itemId + ":";
            e !in WithoutActiveReferences(ledger, itemId) <==>
            e.status.Pending? && |reference| <= |e.fingerprint| && e.fingerprint[..|reference|] == reference
  {
    assert WatchPrefix(itemId) == "watch-v1:" + itemId + ":";
  }

  lemma {:induction false} ObserveAllValid(watches: seq<WatchRecord>, event: WatchEvent)
    requires event.FreshSourceScan? && UniqueWatches(watches)
    requires forall w :: w in watches ==> ValidWatch(w)
    ensures ObserveAll(watches, event).Ok?
    ensures var r := ObserveAll(watches, event).value;
            && UniqueWatches(r)
            && (forall w :: w in r ==> ValidWatch(w))
            && (forall w :: w in r ==> exists v :: v in watches && v.itemId == w.itemId)
  {
    if watches != [] {
      assert watches[0] in watches;
      ObserveAllValid(watches[1..], event);
      var first := ObserveWatch(watches[0], event).value;
      var rest := ObserveAll(watches[1..], event).value;
      var r := ObserveAll(watches, event).value;
      forall w | w in r
        ensures ValidWatch(w) && exists v :: v in watches && v.itemId == w.itemId
      {
        if w in rest {
          var v :| v in watches[1..] && v.itemId == w.itemId;
          assert v in watches;
        }
      }
      forall w | w in rest
        ensures w.itemId != watches[0].itemId
      {
        var v :| v in watches[1..] && v.itemId == w.itemId;
        var i :| 0 <= i < |watches[1..]| && watches[1..][i] == v;
        assert watches[i + 1] == v;
      }
    }
  }

  // A transition that succeeds takes a valid state to a valid state.
  lemma TransitionValid(s: PersistentState, event: WatchEvent)
    requires ValidState(s) && Transition(s, event).Ok?
    ensures ValidState(Transition(s, event).value)
  {
    match event
    case FreshSourceScan(_, _, _) => ObserveAllValid(s.watches, event);
    case StarClick(itemId, _, _) =>
      var next := Transition(s, event).value;
      LedgerFilterValid(s.ledger, itemId);
      match FindWatch(s.watches, itemId) {
        case None => assert forall w :: w in next.watches ==> w in s.watches || w == next.watches[|s.watches|];
        case Some(watch) => ExistingClickValid(s, watch, event);
      }
    case _ =>
  }

  lemma LedgerFilterValid(ledger: seq<LedgerEntry>, itemId: string)
    requires ValidLedger(ledger)
    ensures ValidLedger(WithoutActiveReferences(ledger, itemId))
  {
    var p := ActiveUnder(WatchPrefix(itemId));
    var r := Filter(p, ledger);
    FilterDistinct(p, ledger);
    forall i, j | 0 <= i < j < |r|
      ensures r[i].fingerprint != r[j].fingerprint
    {
      assert r[i] in r && r[j] in r;
    }
  }

  lemma ExistingClickValid(s: PersistentState, watch: WatchRecord, event: WatchEvent)
    requires ValidState(s) && event.StarClick? && watch in s.watches && ClickExisting(s, watch, event).Ok?
    ensures var next := ClickExisting(s, watch, event).value;
            UniqueWatches(next.watches) && forall w :: w in next.watches ==> ValidWatch(w)
  {
    var next := ClickExisting(s, watch, event).value;
    if watch.mode.Permanent? {
      var p := (w: WatchRecord) => w != watch;
      FilterDistinct(p, s.watches);
      forall i, j | 0 <= i < j < |next.watches|
        ensures next.watches[i].itemId != next.watches[j].itemId
      {
        assert next.watches[i] in next.watches && next.watches[j] in next.watches;
      }
    }
  }

  // The first click appends a temporary watch on the item's current evidence.
  lemma FirstClick(s: PersistentState, event: WatchEvent, item: CachedItem)
    requires event.StarClick? && FindWatch(s.watches, event.itemId).None?
    requires FirstItem(event.inventory, event.itemId) == Some(item)
    requires item.watchable && item.installedFingerprint.Some?
    ensures var t := WatchRecord(event.itemId, Temporary, item.installedFingerprint,
                                 item.candidateFingerprint, item.candidateFingerprint.Some?, None);
            Transition(s, event) == Ok(s.(watches := s.watches + [t]))
  {
  }

  lemma SecondClick(s: PersistentState, event: WatchEvent, watches: seq<WatchRecord>, t: WatchRecord)
    requires event.StarClick? && FindWatch(watches, event.itemId).None?
    requires t.itemId == event.itemId && t.mode.Temporary? && s.watches == watches + [t]
    requires exists item :: item in event.inventory && item.itemId == event.itemId && item.watchable
    ensures Transition(s, event) == Ok(s.(watches := watches + [PermanentWatch(event.itemId)]))
  {
    FindLast(watches, t);
    assert ReplaceWatch(s.watches, t, PermanentWatch(t.itemId)) == watches + [PermanentWatch(t.itemId)];
  }

  lemma ThirdClick(s: PersistentState, event: WatchEvent, watches: seq<WatchRecord>)
    requires event.StarClick? && FindWatch(watches, event.itemId).None?
    requires s.watches == watches + [PermanentWatch(event.itemId)]
    ensures Transition(s, event)
            == Ok(s.(watches := watches, ledger := WithoutActiveReferences(s.ledger, event.itemId)))
  {
    var permanent := PermanentWatch(event.itemId);
    FindLast(watches, permanent);
    RemoveLast(watches, permanent);
  }

  lemma RemoveLast(watches: seq<WatchRecord>, watch: WatchRecord)
    requires watch !in watches
    ensures RemoveWatch(watches + [watch], watch) == watches
  {
    var p := (w: WatchRecord) => w != watch;
    FilterConcat(p, watches, [watch]);
    FilterAll(p, watches);
  }

  // Three clicks on a watchable item that is not watched go through temporary
  // and permanent back to unwatched; every pending entry under its prefix is lost,
  // and no other.
  lemma ClickCycle(s: PersistentState, event: WatchEvent, item: CachedItem)
    requires event.StarClick? && FindWatch(s.watches, event.itemId).None?
    requires FirstItem(event.inventory, event.itemId) == Some(item)
    requires item.watchable && item.installedFingerprint.Some?
    ensures var once := Transition(s, event);
            && once.Ok?
            && var twice := Transition(once.value, event);
            && twice.Ok?
            && once.value.watches != s.watches
            && twice.value.watches == s.watches + [PermanentWatch(event.itemId)]
            && Transition(twice.value, event)
               == Ok(s.(ledger := WithoutActiveReferences(s.ledger, event.itemId)))
  {
    FirstClick(s, event, item);
    var once := Transition(s, event).value;
    SecondClick(once, event, s.watches, once.watches[|s.watches|]);
    ThirdClick(Transition(once, event).value, event, s.watches);
  }

  lemma {:induction false} FindLast(watches: seq<WatchRecord>, watch: WatchRecord)
    requires forall w :: w in watches ==> w.itemId != watch.itemId
    ensures FindWatch(watches + [watch], watch.itemId) == Some(watch)
  {
    if watches != [] {
      assert (watches + [watch])[1..] == watches[1..] + [watch];
      FindLast(watches[1..], watch);
    }
  }

  // The set-star command: a click that must end in the requested mode, with the
  // security condition attached to the temporary watch it ends in.
  function SetStar(s: PersistentState, itemId: string, mode: WatchMode,
                   condition: Option<SecurityFixCondition>, inventory: seq<CachedItem>): Transitioned
  {
    var clicked :- Transition(s, StarClick(itemId, inventory, true));
    var updated := if condition.None? then clicked else clicked.(watches := Attach(clicked.watches, itemId, condition));
    var found := FindWatch(updated.watches, itemId);
    if (if found.None? then Off else found.value.mode) != mode then Err(ModeMismatch) else Ok(updated)
  }

  function Attach(watches: seq<WatchRecord>, itemId: string,
                  condition: Option<SecurityFixCondition>): seq<WatchRecord> {
    Map((w: WatchRecord) => if w.itemId == itemId && w.mode.Temporary? then w.(condition := condition) else w, watches)
  }

  // What the command is asked to do next in the cycle of an item: watch it temporarily,
  // then permanently, then not at all.
  predicate Stage(watches: seq<WatchRecord>, itemId: string, mode: WatchMode) {
    match FindWatch(watches, itemId)
    case None => mode.Off?
    case Some(w) => w.mode == mode
  }

  // The stage that a click takes to another one.
  function Before(mode: WatchMode): WatchMode {
    match mode
    case Temporary => Off
    case Permanent => Temporary
    case Off => Permanent
  }

  // The inventory holds the item now, and it can be watched.
  predicate Offered(inventory: seq<CachedItem>, itemId: string) {
    exists item :: item in inventory && item.itemId == itemId && item.watchable
  }

  // The first entry of the inventory for the item can be watched and is installed.
  predicate Startable(inventory: seq<CachedItem>, itemId: string) {
    var item := FirstItem(inventory, itemId);
    item.Some? && item.value.watchable && item.value.installedFingerprint.Some?
  }

  // In a valid state a click succeeds exactly when a permanent watch is given up, or
  // when the inventory offers the item; otherwise the item is not watchable.
  lemma ClickSucceedsIff(s: PersistentState, itemId: string, inventory: seq<CachedItem>, requireCurrent: bool)
    requires ValidState(s)
    ensures Transition(s, StarClick(itemId, inventory, requireCurrent)).Ok? <==>
            || Stage(s.watches, itemId, Permanent)
            || (Stage(s.watches, itemId, Temporary) && (requireCurrent ==> Offered(inventory, itemId)))
            || (Stage(s.watches, itemId, Off) && Startable(inventory, itemId))
    ensures Transition(s, StarClick(itemId, inventory, requireCurrent)).Err? ==>
              Transition(s, StarClick(itemId, inventory, requireCurrent)).error == NotWatchable
  {
    var found := FindWatch(s.watches, itemId);
    assert found.Some? ==> ValidWatch(found.value);
  }

  // And it then takes the item to the next stage.
  lemma ClickAdvances(s: PersistentState, itemId: string, inventory: seq<CachedItem>, requireCurrent: bool)
    requires ValidState(s) && Transition(s, StarClick(itemId, inventory, requireCurrent)).Ok?
    ensures var watches := Transition(s, StarClick(itemId, inventory, requireCurrent)).value.watches;
            && (Stage(s.watches, itemId, Off) ==> Stage(watches, itemId, Temporary))
            && (Stage(s.watches, itemId, Temporary) ==> Stage(watches, itemId, Permanent))
            && (Stage(s.watches, itemId, Permanent) ==> Stage(watches, itemId, Off))
  {
    var watches := Transition(s, StarClick(itemId, inventory, requireCurrent)).value.watches;
    match FindWatch(s.watches, itemId) {
      case None =>
        FindLast(s.watches, watches[|s.watches|]);
      case Some(w) =>
        assert ValidWatch(w);
        OnlyWatch(s.watches, w);
        if w.mode.Temporary? {
          FindReplaced(s.watches, w, PermanentWatch(itemId));
        }
    }
  }

  lemma OnlyWatch(watches: seq<WatchRecord>, watch: WatchRecord)
    requires UniqueWatches(watches) && watch in watches
    ensures forall w :: w in watches && w.itemId == watch.itemId ==> w == watch
    ensures FindWatch(RemoveWatch(watches, watch), watch.itemId).None?
  {
    var i :| 0 <= i < |watches| && watches[i] == watch;
  }

  lemma {:induction false} FindReplaced(watches: seq<WatchRecord>, before: WatchRecord, after: WatchRecord)
    requires FindWatch(watches, before.itemId) == Some(before) && after.itemId == before.itemId
    ensures FindWatch(ReplaceWatch(watches, before, after), before.itemId) == Some(after)
  {
    if watches[0].itemId != before.itemId {
      assert ReplaceWatch(watches, before, after)[1..] == ReplaceWatch(watches[1..], before, after);
      FindReplaced(watches[1..], before, after);
    }
  }

  // The command succeeds exactly when what it asks for is the next stage, and the
  // inventory offers the item unless it is being given up. An unwatchable item is
  // never watched.
  lemma SetStarSucceedsIff(s: PersistentState, itemId: string, mode: WatchMode,
                           condition: Option<SecurityFixCondition>, inventory: seq<CachedItem>)
    requires ValidState(s)
    ensures SetStar(s, itemId, mode, condition, inventory).Ok? <==>
            match mode
            case Temporary => Stage(s.watches, itemId, Off) && Startable(inventory, itemId)
            case Permanent => Stage(s.watches, itemId, Temporary) && Offered(inventory, itemId)
            case Off => Stage(s.watches, itemId, Permanent)
    ensures SetStar(s, itemId, mode, condition, inventory) == Err(ModeMismatch) <==>
            !Stage(s.watches, itemId, Before(mode)) && Transition(s, StarClick(itemId, inventory, true)).Ok?
    ensures SetStar(s, itemId, mode, condition, inventory).Ok? ==>
              Stage(SetStar(s, itemId, mode, condition, inventory).value.watches, itemId, mode)
  {
    ClickSucceedsIff(s, itemId, inventory, true);
    var found := FindWatch(s.watches, itemId);
    assert found.Some? ==> ValidWatch(found.value);
    if Transition(s, StarClick(itemId, inventory, true)).Ok? {
      ClickAdvances(s, itemId, inventory, true);
      var clicked := Transition(s, StarClick(itemId, inventory, true)).value;
      AttachFinds(clicked.watches, itemId, condition);
    }
  }

  // The command leaves a valid state exactly when it attaches no condition, or
  // attaches it to a canonical Arch item.
  lemma SetStarValidIff(s: PersistentState, itemId: string, mode: WatchMode,
                        condition: Option<SecurityFixCondition>, inventory: seq<CachedItem>)
    requires ValidState(s) && SetStar(s, itemId, mode, condition, inventory).Ok?
    requires condition.Some? ==> ValidCondition(condition.value)
    ensures ValidState(SetStar(s, itemId, mode, condition, inventory).value)
            <==> condition.None? || !mode.Temporary? || IsArchItemId(itemId)
  {
    var clicked := Transition(s, StarClick(itemId, inventory, true)).value;
    TransitionValid(s, StarClick(itemId, inventory, true));
    var found := FindWatch(SetStar(s, itemId, mode, condition, inventory).value.watches, itemId);
    if condition.Some? {
      AttachValidIff(clicked.watches, itemId, condition);
      assert FindWatch(Attach(clicked.watches, itemId, condition), itemId) == found;
      AttachFinds(clicked.watches, itemId, condition);
    }
  }

  lemma {:induction false} AttachFinds(watches: seq<WatchRecord>, itemId: string,
                                       condition: Option<SecurityFixCondition>)
    ensures var found := FindWatch(watches, itemId);
            var attached := FindWatch(Attach(watches, itemId, condition), itemId);
            found.Some? == attached.Some? && (found.Some? ==> attached.value.mode == found.value.mode)
  {
    if watches != [] {
      assert Attach(watches, itemId, condition)[1..] == Attach(watches[1..], itemId, condition);
      AttachFinds(watches[1..], itemId, condition);
    }
  }

  predicate WatchesTemporarily(watches: seq<WatchRecord>, itemId: string) {
    FindWatch(watches, itemId).Some? && FindWatch(watches, itemId).value.mode.Temporary?
  }

  lemma AttachValidIff(watches: seq<WatchRecord>, itemId: string, condition: Option<SecurityFixCondition>)
    requires UniqueWatches(watches) && condition.Some? && ValidCondition(condition.value)
    requires forall w :: w in watches ==> ValidWatch(w)
    ensures var r := Attach(watches, itemId, condition);
            && UniqueWatches(r)
            && ((forall w :: w in r ==> ValidWatch(w)) <==> !WatchesTemporarily(watches, itemId) || IsArchItemId(itemId))
  {
    var r := Attach(watches, itemId, condition);
    forall i | 0 <= i < |r|
      ensures r[i].itemId == watches[i].itemId
      ensures ValidWatch(r[i]) <==> !(watches[i].itemId == itemId && watches[i].mode.Temporary?) || IsArchItemId(itemId)
      ensures watches[i].itemId == itemId ==> FindWatch(watches, itemId) == Some(watches[i])
    {
      assert watches[i] in watches;
      if watches[i].itemId == itemId {
        var found := FindWatch(watches, itemId).value;
        var j :| 0 <= j < |watches| && watches[j] == found;
      }
    }
    if WatchesTemporarily(watches, itemId) {
      var found := FindWatch(watches, itemId).value;
      var j :| 0 <= j < |watches| && watches[j] == found;
      assert r[j] in r;
    }
  }
}
