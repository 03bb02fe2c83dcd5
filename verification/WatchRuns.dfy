// What becomes of a watch over any sequence of scans and of clicks on other items.
module WatchRuns {
  import opened Wrappers
  import opened Records
  import opened Sorting
  import opened StateValidation
  import opened Stars

  // The state after an event; a refused click leaves it as it was.
  function Next(s: PersistentState, event: WatchEvent): (r: PersistentState)
    requires ValidState(s)
    ensures ValidState(r)
  {
    match Transition(s, event)
    case Ok(next) =>
      TransitionValid(s, event);
      next
    case Err(_) => s
  }

  function After(s: PersistentState, events: seq<WatchEvent>): (r: PersistentState)
    requires ValidState(s)
    ensures ValidState(r)
  {
    if events == [] then s else Next(After(s, events[..|events| - 1]), events[|events| - 1])
  }

  predicate NoClick(events: seq<WatchEvent>, itemId: string) {
    forall event :: event in events && event.StarClick? ==> event.itemId != itemId
  }

  // What a scan says of an item: only a fresh scan of its own source says anything.
  function Seen(event: WatchEvent, itemId: string): Option<CachedItem> {
    if Covers(event, itemId) then LastItem(event.items, event.source, itemId) else None
  }

  predicate Covers(event: WatchEvent, itemId: string) {
    event.FreshSourceScan? && SourcePrefix(event.source) <= itemId
  }

  // The item is listed as installed with other evidence, or is confirmed to be gone.
  predicate Ends(event: WatchEvent, itemId: string, installed: Option<string>) {
    match Seen(event, itemId)
    case None => Covers(event, itemId) && itemId in event.confirmedRemoved
    case Some(item) => item.installedFingerprint.Some? && item.installedFingerprint != installed
  }

  function Offer(event: WatchEvent, itemId: string): Option<string> {
    var seen := Seen(event, itemId);
    if seen.None? then None else seen.value.candidateFingerprint
  }

  // The first candidate that any of the events offers.
  function FirstOffer(events: seq<WatchEvent>, itemId: string): Option<string> {
    if events == [] then None
    else
      var n := |events| - 1;
      var earlier := FirstOffer(events[..n], itemId);
      if earlier.Some? then earlier else Offer(events[n], itemId)
  }

  predicate OffersFirst(events: seq<WatchEvent>, i: nat, itemId: string) {
    && i < |events| && Offer(events[i], itemId).Some?
    && forall j :: 0 <= j < i ==> Offer(events[j], itemId).None?
  }

  lemma {:induction false} NothingOffered(events: seq<WatchEvent>, itemId: string)
    requires forall i :: 0 <= i < |events| ==> Offer(events[i], itemId).None?
    ensures FirstOffer(events, itemId).None?
  {
    if events != [] {
      NothingOffered(events[..|events| - 1], itemId);
    }
  }

  lemma {:induction false} FirstOfferIsFirst(events: seq<WatchEvent>, i: nat, itemId: string)
    requires OffersFirst(events, i, itemId)
    ensures FirstOffer(events, itemId) == Offer(events[i], itemId)
  {
    var n := |events| - 1;
    if i < n {
      FirstOfferIsFirst(events[..n], i, itemId);
    } else {
      NothingOffered(events[..n], itemId);
    }
  }

  ghost predicate Ended(events: seq<WatchEvent>, itemId: string, installed: Option<string>) {
    exists i :: 0 <= i < |events| && Ends(events[i], itemId, installed)
  }

  // One event

  lemma FindFirst(first: Option<WatchRecord>, rest: seq<WatchRecord>, itemId: string)
    ensures FindWatch((if first.Some? then [first.value] else []) + rest, itemId) ==
            if first.Some? && first.value.itemId == itemId then first else FindWatch(rest, itemId)
  {
    if first.Some? {
      assert ([first.value] + rest)[1..] == rest;
    } else {
      assert [] + rest == rest;
    }
  }

  predicate AllValid(watches: seq<WatchRecord>) {
    UniqueWatches(watches) && forall w :: w in watches ==> ValidWatch(w)
  }

  lemma ValidRest(watches: seq<WatchRecord>)
    requires AllValid(watches) && watches != []
    ensures ValidWatch(watches[0]) && AllValid(watches[1..])
    ensures FindWatch(watches[1..], watches[0].itemId).None?
  {
    assert watches[0] in watches;
  }

  lemma ObserveValid(w: WatchRecord, event: WatchEvent)
    requires event.FreshSourceScan? && ValidWatch(w)
    ensures ObserveWatch(w, event).Ok?
    ensures ObserveWatch(w, event).value.Some? ==> ObserveWatch(w, event).value.value.itemId == w.itemId
  {
  }

  lemma {:induction false} ObservedOnly(watches: seq<WatchRecord>, event: WatchEvent, itemId: string)
    requires event.FreshSourceScan? && AllValid(watches)
    ensures ObserveAll(watches, event).Ok?
    ensures FindWatch(watches, itemId).Some? ==> ObserveWatch(FindWatch(watches, itemId).value, event).Ok?
    ensures FindWatch(ObserveAll(watches, event).value, itemId) ==
            if FindWatch(watches, itemId).None? then None else ObserveWatch(FindWatch(watches, itemId).value, event).value
  {
    if watches != [] {
      ValidRest(watches);
      ObserveValid(watches[0], event);
      ObservedOnly(watches[1..], event, itemId);
      FindFirst(ObserveWatch(watches[0], event).value, ObserveAll(watches[1..], event).value, itemId);
    }
  }

  lemma ClickElsewhere(s: PersistentState, event: WatchEvent, itemId: string)
    requires ValidState(s) && event.StarClick? && event.itemId != itemId && Transition(s, event).Ok?
    ensures FindWatch(Transition(s, event).value.watches, itemId) == FindWatch(s.watches, itemId)
  {
    var next := Transition(s, event).value.watches;
    match FindWatch(s.watches, event.itemId) {
      case None => FindBefore(s.watches, next[|s.watches|], itemId);
      case Some(w) =>
        if w.mode.Temporary? {
          FindOther(s.watches, w, PermanentWatch(w.itemId), itemId);
        } else {
          FindKept(s.watches, w, itemId);
        }
    }
  }

  lemma {:induction false} FindBefore(watches: seq<WatchRecord>, last: WatchRecord, itemId: string)
    requires last.itemId != itemId
    ensures FindWatch(watches + [last], itemId) == FindWatch(watches, itemId)
  {
    if watches != [] {
      assert (watches + [last])[1..] == watches[1..] + [last];
      FindBefore(watches[1..], last, itemId);
    }
  }

  lemma {:induction false} FindOther(watches: seq<WatchRecord>, before: WatchRecord, after: WatchRecord, itemId: string)
    requires before.itemId == after.itemId != itemId
    ensures FindWatch(ReplaceWatch(watches, before, after), itemId) == FindWatch(watches, itemId)
  {
    if watches != [] {
      assert ReplaceWatch(watches, before, after)[1..] == ReplaceWatch(watches[1..], before, after);
      FindOther(watches[1..], before, after, itemId);
    }
  }

  lemma {:induction false} FindKept(watches: seq<WatchRecord>, watch: WatchRecord, itemId: string)
    requires watch.itemId != itemId
    ensures FindWatch(RemoveWatch(watches, watch), itemId) == FindWatch(watches, itemId)
  {
    if watches != [] {
      FindKept(watches[1..], watch, itemId);
      var rest := RemoveWatch(watches[1..], watch);
      assert RemoveWatch(watches, watch) == (if watches[0] != watch then [watches[0]] else []) + rest;
      assert ([watches[0]] + rest)[1..] == rest;
    }
  }

  // What one event that is not a click on the item makes of its watch.
  lemma WatchStep(s: PersistentState, event: WatchEvent, itemId: string)
    requires ValidState(s) && (event.StarClick? ==> event.itemId != itemId) && Transition(s, event).Ok?
    ensures var before := FindWatch(s.watches, itemId);
            var after := FindWatch(Transition(s, event).value.watches, itemId);
            if before.None? then after.None?
            else if before.value.mode.Permanent? then after == before
            else if Ends(event, itemId, before.value.installedFingerprint) then after.None?
            else after == Some(Armed(before.value, Offer(event, itemId)))
  {
    var before := FindWatch(s.watches, itemId);
    assert before.Some? ==> ValidWatch(before.value);
    match event
    case StarClick(_, _, _) => ClickElsewhere(s, event, itemId);
    case FreshSourceScan(_, _, _) => ObservedOnly(s.watches, event, itemId);
    case _ =>
  }

  // A temporary watch keeps the first candidate that it is offered.
  function Armed(w: WatchRecord, offer: Option<string>): WatchRecord {
    if w.armed || offer.None? then w else w.(candidateFingerprint := offer, armed := true)
  }

  // The same when the event may be refused: a scan never is.
  lemma NextEvent(s: PersistentState, event: WatchEvent, itemId: string)
    requires ValidState(s) && (event.StarClick? ==> event.itemId != itemId)
    ensures var before := FindWatch(s.watches, itemId);
            var after := FindWatch(Next(s, event).watches, itemId);
            if before.None? then after.None?
            else if before.value.mode.Permanent? then after == before
            else if Ends(event, itemId, before.value.installedFingerprint) then after.None?
            else after == Some(Armed(before.value, Offer(event, itemId)))
  {
    if Transition(s, event).Ok? {
      WatchStep(s, event, itemId);
    } else if event.FreshSourceScan? {
      ObserveAllValid(s.watches, event);
    }
  }

  // Sequences of events

  // A permanent watch stays as it is until it is clicked on, whatever is scanned.
  lemma {:induction false} PermanentStays(s: PersistentState, events: seq<WatchEvent>, itemId: string)
    requires ValidState(s) && NoClick(events, itemId)
    requires FindWatch(s.watches, itemId).Some? && FindWatch(s.watches, itemId).value.mode.Permanent?
    ensures FindWatch(After(s, events).watches, itemId) == FindWatch(s.watches, itemId)
  {
    if events != [] {
      var n := |events| - 1;
      PermanentStays(s, events[..n], itemId);
      NextEvent(After(s, events[..n]), events[n], itemId);
    }
  }

  // A temporary watch is gone exactly when some fresh scan of its source listed the
  // item with other installed evidence, or confirmed that it was removed. Until then
  // it holds the evidence it was made with and the first candidate it was offered.
  lemma {:induction false} TemporaryEnds(s: PersistentState, events: seq<WatchEvent>, w: WatchRecord)
    requires ValidState(s) && NoClick(events, w.itemId)
    requires FindWatch(s.watches, w.itemId) == Some(w) && w.mode.Temporary?
    ensures FindWatch(After(s, events).watches, w.itemId) ==
            if Ended(events, w.itemId, w.installedFingerprint) then None
            else Some(Armed(w, FirstOffer(events, w.itemId)))
  {
    if events != [] {
      var n := |events| - 1;
      var before := After(s, events[..n]);
      TemporaryEnds(s, events[..n], w);
      EndedOneMore(events, w.itemId, w.installedFingerprint);
      NextEvent(before, events[n], w.itemId);
    }
  }

  lemma EndedOneMore(events: seq<WatchEvent>, itemId: string, installed: Option<string>)
    requires events != []
    ensures var n := |events| - 1;
            Ended(events, itemId, installed) <==> Ended(events[..n], itemId, installed) || Ends(events[n], itemId, installed)
  {
    var n := |events| - 1;
    if i :| 0 <= i < |events| && Ends(events[i], itemId, installed) {
      assert i < n ==> events[..n][i] == events[i];
    }
    if i :| 0 <= i < n && Ends(events[..n][i], itemId, installed) {
      assert events[i] == events[..n][i];
    }
  }
}
