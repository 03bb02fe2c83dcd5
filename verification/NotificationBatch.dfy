// Claiming and completing a batch of desktop notifications under a lease.
module NotificationBatch {
  import opened Wrappers
  import opened Records
  import opened Sorting
  import opened LedgerPruning

  const LEASE_DURATION := 30 * SECOND

  datatype NotificationKind = Watch | Security | SecurityCondition

  datatype NotificationChange = First | New | Unchanged

  datatype Candidate = Candidate(
    fingerprint: string, reference: string, kind: NotificationKind, change: NotificationChange)

  datatype Batch = Batch(kind: NotificationKind, candidates: seq<Candidate>, leaseToken: string)

  datatype CommandResult = Succeeded | Exited | Missing | OutputExceeded | TimedOut | Rejected

  function OwnerFingerprint(kind: NotificationKind): string {
    match kind
    case Watch => "notification-owner-v1:watch"
    case Security => "notification-owner-v1:security"
    case SecurityCondition => "notification-owner-v1:security-condition"
  }

  function FailureStatus(change: NotificationChange): NotificationStatus {
    match change
    case First => Pending
    case New => Pending
    case Unchanged => Pending
  }

  function DeliveryStatus(result: CommandResult, change: NotificationChange): NotificationStatus {
    match result
    case Succeeded => Delivered
    case Rejected => NotificationStatus.Failed
    case _ => FailureStatus(change)
  }

  // A delivered notification is final, and so is a rejected one; any other result
  // leaves it to be tried again.
  predicate CarriesResult(status: NotificationStatus, result: CommandResult) {
    && (status.Delivered? <==> result == Succeeded)
    && (status.Failed? <==> result == Rejected)
    && (status.Pending? <==> result in {Exited, Missing, OutputExceeded, TimedOut})
  }

  lemma StatusCarriesResult(result: CommandResult, change: NotificationChange)
    ensures CarriesResult(DeliveryStatus(result, change), result)
  {
  }

  predicate LiveLease(e: LedgerEntry, now: Instant) {
    e.leaseToken.Some? && e.leaseExpiresAt.Some? && e.leaseExpiresAt.value > now
  }

  predicate Claimable(entry: Option<LedgerEntry>, now: Instant) {
    entry.None? || (entry.value.status.Pending? && !LiveLease(entry.value, now))
  }

  predicate OwnedBy(entry: Option<LedgerEntry>, token: string) {
    entry.Some? && entry.value.leaseToken == Some(token)
  }

  predicate OwnsOwner(ledger: seq<LedgerEntry>, kind: NotificationKind, token: string) {
    OwnedBy(Entry(ledger, OwnerFingerprint(kind)), token)
  }

  function LeaseEntry(fingerprint: string, now: Instant, token: string): LedgerEntry {
    LedgerEntry(fingerprint, Pending, now, Some(token), Some(now + LEASE_DURATION))
  }

  predicate Names(candidates: seq<Candidate>, fingerprint: string) {
    exists c :: c in candidates && c.fingerprint == fingerprint
  }

  predicate Refers(candidates: seq<Candidate>, fingerprint: string) {
    exists c :: c in candidates && c.reference <= fingerprint
  }

  function Upsert(ledger: seq<LedgerEntry>, updated: LedgerEntry): seq<LedgerEntry> {
    if exists e :: e in ledger && e.fingerprint == updated.fingerprint then
      Map((e: LedgerEntry) => if e.fingerprint == updated.fingerprint then updated else e, ledger)
    else ledger + [updated]
  }

  function UpsertLeases(ledger: seq<LedgerEntry>, claimed: seq<Candidate>, now: Instant,
                        token: string): seq<LedgerEntry> {
    if claimed == [] then ledger
    else
      var last := |claimed| - 1;
      Upsert(UpsertLeases(ledger, claimed[..last], now, token), LeaseEntry(claimed[last].fingerprint, now, token))
  }

  function SuppressSuperseded(ledger: seq<LedgerEntry>, claimed: seq<Candidate>): seq<LedgerEntry> {
    Map((e: LedgerEntry) =>
          if !Names(claimed, e.fingerprint) && e.IsActive() && Refers(claimed, e.fingerprint)
          then e.(status := Suppressed) else e,
        ledger)
  }

  function ClaimableOf(ledger: seq<LedgerEntry>, candidates: seq<Candidate>, now: Instant): seq<Candidate> {
    Filter((c: Candidate) => Claimable(Entry(ledger, c.fingerprint), now), candidates)
  }

  // Whether a reservation goes through: the kind has no live owner and a candidate is free.
  predicate Reserves(ledger: seq<LedgerEntry>, kind: NotificationKind, candidates: seq<Candidate>, now: Instant) {
    var owner := Entry(ledger, OwnerFingerprint(kind));
    && (owner.None? || !LiveLease(owner.value, now))
    && ClaimableOf(ledger, candidates, now) != []
  }

  function ReserveLedger(ledger: seq<LedgerEntry>, kind: NotificationKind, candidates: seq<Candidate>,
                         now: Instant, token: string): seq<LedgerEntry>
  {
    if !Reserves(ledger, kind, candidates, now) then ledger
    else
      var claimed := ClaimableOf(ledger, candidates, now);
      Upsert(UpsertLeases(SuppressSuperseded(ledger, claimed), claimed, now, token),
             LeaseEntry(OwnerFingerprint(kind), now, token))
  }

  // The batch a claimant reads back from the ledger it has just written.
  function ClaimedBatch(ledger: seq<LedgerEntry>, kind: NotificationKind, candidates: seq<Candidate>,
                        token: string): Option<Batch>
  {
    var claimed := Filter((c: Candidate) => OwnedBy(Entry(ledger, c.fingerprint), token), candidates);
    if claimed == [] || !OwnsOwner(ledger, kind, token) then None else Some(Batch(kind, claimed, token))
  }

  // The status a batch's result gives a fingerprint: the last candidate naming it decides.
  function UpdateFor(candidates: seq<Candidate>, result: CommandResult,
                     fingerprint: string): Option<NotificationStatus> {
    if candidates == [] then None
    else
      var last := candidates[|candidates| - 1];
      if last.fingerprint == fingerprint then Some(DeliveryStatus(result, last.change))
      else UpdateFor(candidates[..|candidates| - 1], result, fingerprint)
  }

  predicate Finalises(batch: Batch, e: LedgerEntry) {
    Names(batch.candidates, e.fingerprint) && e.leaseToken == Some(batch.leaseToken)
  }

  function FinalEntry(batch: Batch, result: CommandResult, e: LedgerEntry): LedgerEntry {
    var status := UpdateFor(batch.candidates, result, e.fingerprint);
    if status.Some? && e.leaseToken == Some(batch.leaseToken)
    then e.(status := status.value, leaseToken := None, leaseExpiresAt := None) else e
  }

  function NotOwner(kind: NotificationKind): LedgerEntry -> bool {
    (e: LedgerEntry) => e.fingerprint != OwnerFingerprint(kind)
  }

  function CompleteLedger(ledger: seq<LedgerEntry>, batch: Batch, result: CommandResult): seq<LedgerEntry> {
    if !OwnsOwner(ledger, batch.kind, batch.leaseToken) then ledger
    else Map((e: LedgerEntry) => FinalEntry(batch, result, e), Filter(NotOwner(batch.kind), ledger))
  }

  function Completed(ledger: seq<LedgerEntry>, batch: Batch): set<string> {
    if !OwnsOwner(ledger, batch.kind, batch.leaseToken) then {}
    else set e | e in ledger && Finalises(batch, e) :: e.fingerprint
  }

  // What completing a batch reports, candidate by candidate.
  function Outcomes(ledger: seq<LedgerEntry>, batch: Batch, result: CommandResult): seq<NotificationOutcome> {
    var completed := Completed(ledger, batch);
    Map((c: Candidate) => NotificationOutcome(c.fingerprint, DeliveryStatus(result, c.change)),
        Filter((c: Candidate) => c.fingerprint in completed, batch.candidates))
  }

  lemma OutcomesCarryResult(ledger: seq<LedgerEntry>, batch: Batch, result: CommandResult)
    ensures forall o :: o in Outcomes(ledger, batch, result) ==> CarriesResult(o.status, result)
  {
    var completed := Completed(ledger, batch);
    var reported := Filter((c: Candidate) => c.fingerprint in completed, batch.candidates);
    forall o | o in Outcomes(ledger, batch, result)
      ensures CarriesResult(o.status, result)
    {
      var i :| 0 <= i < |reported| && Outcomes(ledger, batch, result)[i] == o;
      StatusCarriesResult(result, reported[i].change);
    }
  }

  // Lookups after each operation

  lemma {:induction false} EntryMap(ledger: seq<LedgerEntry>, f: LedgerEntry -> LedgerEntry, fingerprint: string)
    requires forall e :: f(e).fingerprint == e.fingerprint
    ensures var e := Entry(ledger, fingerprint);
            Entry(Map(f, ledger), fingerprint) == if e.None? then None else Some(f(e.value))
  {
    if ledger != [] {
      assert Map(f, ledger)[1..] == Map(f, ledger[1..]);
      EntryMap(ledger[1..], f, fingerprint);
    }
  }

  lemma {:induction false} EntryAppend(ledger: seq<LedgerEntry>, e: LedgerEntry, fingerprint: string)
    ensures Entry(ledger + [e], fingerprint) ==
            if Entry(ledger, fingerprint).Some? then Entry(ledger, fingerprint)
            else if e.fingerprint == fingerprint then Some(e) else None
  {
    if ledger != [] {
      assert (ledger + [e])[1..] == ledger[1..] + [e];
      EntryAppend(ledger[1..], e, fingerprint);
    }
  }

  lemma {:induction false} EntryFilter(ledger: seq<LedgerEntry>, p: LedgerEntry -> bool, fingerprint: string)
    requires UniqueFingerprints(ledger)
    ensures var e := Entry(ledger, fingerprint);
            Entry(Filter(p, ledger), fingerprint) == if e.Some? && p(e.value) then e else None
  {
    if ledger != [] {
      EntryFilter(ledger[1..], p, fingerprint);
      if ledger[0].fingerprint == fingerprint {
        assert Entry(ledger[1..], fingerprint).None? by {
          forall e | e in ledger[1..]
            ensures e.fingerprint != fingerprint
          {
            var i :| 0 <= i < |ledger[1..]| && ledger[1..][i] == e;
          }
        }
      }
    }
  }

  lemma UniqueFilter(ledger: seq<LedgerEntry>, p: LedgerEntry -> bool)
    requires UniqueFingerprints(ledger)
    ensures UniqueFingerprints(Filter(p, ledger))
  {
    FilterDistinct(p, ledger);
    var r := Filter(p, ledger);
    forall i, j | 0 <= i < j < |r|
      ensures r[i].fingerprint != r[j].fingerprint
    {
      assert r[i] in r && r[j] in r;
    }
  }

  lemma UpsertEntry(ledger: seq<LedgerEntry>, updated: LedgerEntry, fingerprint: string)
    ensures Entry(Upsert(ledger, updated), fingerprint) ==
            if fingerprint == updated.fingerprint then Some(updated) else Entry(ledger, fingerprint)
  {
    if exists e :: e in ledger && e.fingerprint == updated.fingerprint {
      EntryMap(ledger, (e: LedgerEntry) => if e.fingerprint == updated.fingerprint then updated else e, fingerprint);
    } else {
      EntryAppend(ledger, updated, fingerprint);
    }
  }

  lemma UpsertUnique(ledger: seq<LedgerEntry>, updated: LedgerEntry)
    requires UniqueFingerprints(ledger)
    ensures UniqueFingerprints(Upsert(ledger, updated))
  {
  }

  lemma {:induction false} UpsertLeasesEntry(ledger: seq<LedgerEntry>, claimed: seq<Candidate>, now: Instant,
                                             token: string, fingerprint: string)
    ensures Entry(UpsertLeases(ledger, claimed, now, token), fingerprint) ==
            if Names(claimed, fingerprint) then Some(LeaseEntry(fingerprint, now, token)) else Entry(ledger, fingerprint)
  {
    if claimed != [] {
      var last := |claimed| - 1;
      UpsertLeasesEntry(ledger, claimed[..last], now, token, fingerprint);
      UpsertEntry(UpsertLeases(ledger, claimed[..last], now, token),
                  LeaseEntry(claimed[last].fingerprint, now, token), fingerprint);
      assert claimed == claimed[..last] + [claimed[last]];
      assert Names(claimed, fingerprint) <==>
             Names(claimed[..last], fingerprint) || claimed[last].fingerprint == fingerprint;
    }
  }

  lemma {:induction false} UpsertLeasesUnique(ledger: seq<LedgerEntry>, claimed: seq<Candidate>, now: Instant,
                                              token: string)
    requires UniqueFingerprints(ledger)
    ensures UniqueFingerprints(UpsertLeases(ledger, claimed, now, token))
  {
    if claimed != [] {
      UpsertLeasesUnique(ledger, claimed[..|claimed| - 1], now, token);
    }
  }

  // After a reservation the batch's fingerprints and the kind's owner carry the
  // new lease, pending entries under the batch's references are suppressed, and
  // every other entry is as it was.
  lemma ReserveEntry(ledger: seq<LedgerEntry>, kind: NotificationKind, candidates: seq<Candidate>,
                     now: Instant, token: string, fingerprint: string)
    requires Reserves(ledger, kind, candidates, now)
    ensures var claimed := ClaimableOf(ledger, candidates, now);
            var before := Entry(ledger, fingerprint);
            Entry(ReserveLedger(ledger, kind, candidates, now, token), fingerprint) ==
            if fingerprint == OwnerFingerprint(kind) || Names(claimed, fingerprint)
            then Some(LeaseEntry(fingerprint, now, token))
            else if before.Some? && before.value.IsActive() && Refers(claimed, fingerprint)
            then Some(before.value.(status := Suppressed))
            else before
  {
    var claimed := ClaimableOf(ledger, candidates, now);
    var suppressed := SuppressSuperseded(ledger, claimed);
    UpsertEntry(UpsertLeases(suppressed, claimed, now, token), LeaseEntry(OwnerFingerprint(kind), now, token),
                fingerprint);
    UpsertLeasesEntry(suppressed, claimed, now, token, fingerprint);
    EntryMap(ledger,
             (e: LedgerEntry) =>
               if !Names(claimed, e.fingerprint) && e.IsActive() && Refers(claimed, e.fingerprint)
               then e.(status := Suppressed) else e,
             fingerprint);
  }

  lemma ReserveUnique(ledger: seq<LedgerEntry>, kind: NotificationKind, candidates: seq<Candidate>,
                      now: Instant, token: string)
    requires UniqueFingerprints(ledger)
    ensures UniqueFingerprints(ReserveLedger(ledger, kind, candidates, now, token))
  {
    if Reserves(ledger, kind, candidates, now) {
      var claimed := ClaimableOf(ledger, candidates, now);
      var suppressed := SuppressSuperseded(ledger, claimed);
      assert UniqueFingerprints(suppressed);
      UpsertLeasesUnique(suppressed, claimed, now, token);
      UpsertUnique(UpsertLeases(suppressed, claimed, now, token), LeaseEntry(OwnerFingerprint(kind), now, token));
    }
  }

  // After a completion by the kind's owner, that owner entry is gone, the batch's
  // surviving entries carry the result without a lease, and the rest is as it was.
  lemma CompleteEntry(ledger: seq<LedgerEntry>, batch: Batch, result: CommandResult, fingerprint: string)
    requires UniqueFingerprints(ledger) && OwnsOwner(ledger, batch.kind, batch.leaseToken)
    ensures var before := Entry(ledger, fingerprint);
            Entry(CompleteLedger(ledger, batch, result), fingerprint) ==
            if fingerprint == OwnerFingerprint(batch.kind) || before.None? then None
            else Some(FinalEntry(batch, result, before.value))
    ensures var before := Entry(ledger, fingerprint);
            before.Some? && fingerprint != OwnerFingerprint(batch.kind) && Finalises(batch, before.value) ==>
              var after := Entry(CompleteLedger(ledger, batch, result), fingerprint).value;
              CarriesResult(after.status, result) && after.leaseToken.None? && after.leaseExpiresAt.None?
  {
    UpdateForAny(batch.candidates, result, fingerprint);
    StatusCarriesResult(result, First);
    EntryFilter(ledger, NotOwner(batch.kind), fingerprint);
    EntryMap(Filter(NotOwner(batch.kind), ledger), (e: LedgerEntry) => FinalEntry(batch, result, e), fingerprint);
  }

  lemma CompleteUnique(ledger: seq<LedgerEntry>, batch: Batch, result: CommandResult)
    requires UniqueFingerprints(ledger)
    ensures UniqueFingerprints(CompleteLedger(ledger, batch, result))
  {
    UniqueFilter(ledger, NotOwner(batch.kind));
  }

  // Every candidate of a fingerprint gives it the same status, whatever its change.
  lemma {:induction false} UpdateForAny(candidates: seq<Candidate>, result: CommandResult, fingerprint: string)
    ensures UpdateFor(candidates, result, fingerprint)
            == if Names(candidates, fingerprint) then Some(DeliveryStatus(result, First)) else None
  {
    if candidates != [] {
      var last := |candidates| - 1;
      UpdateForAny(candidates[..last], result, fingerprint);
      assert candidates == candidates[..last] + [candidates[last]];
      assert Names(candidates, fingerprint) <==>
             Names(candidates[..last], fingerprint) || candidates[last].fingerprint == fingerprint;
    }
  }

  // The store: one process's view of the shared ledger, changed only under the lock

  class LedgerStore {
    var state: PersistentState

    constructor (initial: PersistentState)
      ensures state == initial
    {
      state := initial;
    }

    // The reservation loop, candidate by candidate.
    method Reserve(current: seq<LedgerEntry>, kind: NotificationKind, candidates: seq<Candidate>,
                   now: Instant, token: string) returns (ledger: seq<LedgerEntry>)
      ensures ledger == ReserveLedger(current, kind, candidates, now, token)
    {
      var owner := Entry(current, OwnerFingerprint(kind));
      if owner.Some? && LiveLease(owner.value, now) {
        return current;
      }
      var claimed := ClaimableOf(current, candidates, now);
      if claimed == [] {
        return current;
      }
      ledger := SuppressSuperseded(current, claimed);
      for i := 0 to |claimed|
        invariant ledger == UpsertLeases(SuppressSuperseded(current, claimed), claimed[..i], now, token)
      {
        assert claimed[..i + 1][..i] == claimed[..i];
        ledger := Upsert(ledger, LeaseEntry(claimed[i].fingerprint, now, token));
      }
      assert claimed[..|claimed|] == claimed;
      ledger := Upsert(ledger, LeaseEntry(OwnerFingerprint(kind), now, token));
    }

    // One locked claim: load (pruned), reserve, write (pruned), read the batch back.
    method ClaimBatch(kind: NotificationKind, candidates: seq<Candidate>, now: Instant, token: string,
                      loadedAt: Instant, writtenAt: Instant) returns (batch: Option<Batch>)
      modifies this
      ensures var reserved := ReserveLedger(PruneEntries(old(state).ledger, loadedAt), kind, candidates, now, token);
              && state == old(state).(ledger := PruneEntries(reserved, writtenAt))
              && batch == ClaimedBatch(reserved, kind, candidates, token)
    {
      var loaded := PruneLedger(state, loadedAt);
      var reserved := Reserve(loaded.ledger, kind, candidates, now, token);
      state := PruneLedger(loaded.(ledger := reserved), writtenAt);
      batch := ClaimedBatch(reserved, kind, candidates, token);
    }

    // One locked completion: load (pruned), finalise, write (pruned), report.
    method CompleteBatch(batch: Batch, result: CommandResult, loadedAt: Instant, writtenAt: Instant)
      returns (outcomes: seq<NotificationOutcome>)
      modifies this
      ensures var loaded := PruneEntries(old(state).ledger, loadedAt);
              && state == old(state).(ledger := PruneEntries(CompleteLedger(loaded, batch, result), writtenAt))
              && outcomes == Outcomes(loaded, batch, result)
      ensures forall o :: o in outcomes ==> CarriesResult(o.status, result)
    {
      var loaded := PruneLedger(state, loadedAt);
      outcomes := Outcomes(loaded.ledger, batch, result);
      OutcomesCarryResult(loaded.ledger, batch, result);
      state := PruneLedger(loaded.(ledger := CompleteLedger(loaded.ledger, batch, result)), writtenAt);
    }
  }
}
