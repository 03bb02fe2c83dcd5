// What a persistent state must satisfy before it may be written.
module StateValidation {
  import opened Wrappers
  import opened Records
  import opened Sorting
  import opened LedgerPruning

  const MAX_VERSION_LENGTH := 256
  const MAX_CVE_IDS := 16

  predicate IsDigit(c: char) {
    '0' <= c <= '9'
  }

  predicate IsAlphanumeric(c: char) {
    IsDigit(c) || 'A' <= c <= 'Z' || 'a' <= c <= 'z'
  }

  predicate AllDigits(s: string) {
    forall c :: c in s ==> IsDigit(c)
  }

  // arch: followed by one of [A-Za-z0-9@_+] and up to 127 of [A-Za-z0-9@._+-].
  predicate IsArchItemId(s: string) {
    && 6 <= |s| <= 133
    && s[..5] == "arch:"
    && (IsAlphanumeric(s[5]) || s[5] in "@_+")
    && forall c :: c in s[6..] ==> IsAlphanumeric(c) || c in "@._+-"
  }

  // AVG- followed by 1 to 120 digits.
  predicate IsAdvisoryId(s: string) {
    5 <= |s| <= 124 && s[..4] == "AVG-" && AllDigits(s[4..])
  }

  // CVE- followed by four digits, a hyphen and 4 to 19 digits.
  predicate IsCveId(s: string) {
    && 13 <= |s| <= 28
    && s[..4] == "CVE-" && AllDigits(s[4..8])
    && s[8] == '-' && AllDigits(s[9..])
  }

  // A non-empty printable ASCII string of bounded length.
  predicate IsFixedVersion(s: string) {
    1 <= |s| <= MAX_VERSION_LENGTH && forall c :: c in s ==> ' ' <= c <= '~'
  }

  predicate ValidCondition(c: SecurityFixCondition) {
    && IsAdvisoryId(c.advisoryId)
    && 1 <= |c.cveIds| <= MAX_CVE_IDS
    && (forall i, j :: 0 <= i < j < |c.cveIds| ==> c.cveIds[i] != c.cveIds[j])
    && (forall id :: id in c.cveIds ==> IsCveId(id))
    && IsFixedVersion(c.fixedVersion)
  }

  function PermanentWatch(itemId: string): WatchRecord {
    WatchRecord(itemId, Permanent, None, None, false, None)
  }

  predicate ValidWatch(w: WatchRecord) {
    match w.mode
    case Permanent =>
      w.installedFingerprint.None? && w.candidateFingerprint.None? && !w.armed && w.condition.None?
    case Temporary =>
      && w.installedFingerprint.Some?
      && w.armed == w.candidateFingerprint.Some?
      && (w.condition.Some? ==> IsArchItemId(w.itemId) && ValidCondition(w.condition.value))
    case Off => false
  }

  predicate ValidLease(e: LedgerEntry) {
    e.leaseToken.None? == e.leaseExpiresAt.None? && e.leaseToken != Some("")
  }

  predicate UniqueWatches(watches: seq<WatchRecord>) {
    forall i, j :: 0 <= i < j < |watches| ==> watches[i].itemId != watches[j].itemId
  }

  predicate UniqueSources(sources: seq<SourceMetadata>) {
    forall i, j :: 0 <= i < j < |sources| ==> sources[i].source != sources[j].source
  }

  predicate ValidLedger(ledger: seq<LedgerEntry>) {
    && (forall i, j :: 0 <= i < j < |ledger| ==> ledger[i].fingerprint != ledger[j].fingerprint)
    && forall e :: e in ledger ==> ValidLease(e)
  }

  predicate ValidState(s: PersistentState) {
    && UniqueWatches(s.watches)
    && ValidLedger(s.ledger)
    && UniqueSources(s.sources)
    && (forall m :: m in s.sources ==> m.failureCount >= 0)
    && (forall w :: w in s.watches ==> ValidWatch(w))
  }

  lemma PruneKeepsValid(s: PersistentState, now: Instant)
    requires ValidState(s)
    ensures ValidState(PruneLedger(s, now))
  {
    PruneMembers(s.ledger, now);
  }
}
