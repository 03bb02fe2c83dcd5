// The notification ledger: lookup by fingerprint, and the pruning that every
// load and every write of the state applies.
module LedgerPruning {
  import opened Wrappers
  import opened Records
  import opened Sorting

  const MAX_INACTIVE_LEDGER_ENTRIES := 5_000
  const MAX_INACTIVE_LEDGER_AGE := 180 * DAY

  // Newest first; equal times fall back to the fingerprint, greatest first.
  predicate NewerFirst(a: LedgerEntry, b: LedgerEntry) {
    a.recordedAt > b.recordedAt
    || (a.recordedAt == b.recordedAt && StringLe(b.fingerprint, a.fingerprint))
  }

  const Newest: (LedgerEntry, LedgerEntry) -> bool := (a, b) => NewerFirst(a, b)

  const Active: LedgerEntry -> bool := (e: LedgerEntry) => e.IsActive()

  function Unexpired(cutoff: Instant): LedgerEntry -> bool {
    (e: LedgerEntry) => !e.IsActive() && e.recordedAt >= cutoff
  }

  function Take<T>(n: nat, xs: seq<T>): seq<T> {
    if |xs| <= n then xs else xs[..n]
  }

  function PruneEntries(ledger: seq<LedgerEntry>, now: Instant): seq<LedgerEntry> {
    Filter(Active, ledger)
    + Take(MAX_INACTIVE_LEDGER_ENTRIES,
           Sort(Filter(Unexpired(now - MAX_INACTIVE_LEDGER_AGE), ledger), Newest))
  }

  function PruneLedger(state: PersistentState, now: Instant): PersistentState {
    state.(ledger := PruneEntries(state.ledger, now))
  }

  ghost predicate UniqueFingerprints(ledger: seq<LedgerEntry>) {
    forall i, j :: 0 <= i < j < |ledger| ==> ledger[i].fingerprint != ledger[j].fingerprint
  }

  // The first entry under a fingerprint.
  function Entry(ledger: seq<LedgerEntry>, fingerprint: string): (r: Option<LedgerEntry>)
    ensures r.Some? ==> r.value in ledger && r.value.fingerprint == fingerprint
    ensures r.None? <==> forall e :: e in ledger ==> e.fingerprint != fingerprint
  {
    if ledger == [] then None
    else if ledger[0].fingerprint == fingerprint then Some(ledger[0])
    else Entry(ledger[1..], fingerprint)
  }

  lemma EntryOfMember(ledger: seq<LedgerEntry>, e: LedgerEntry)
    requires UniqueFingerprints(ledger) && e in ledger
    ensures Entry(ledger, e.fingerprint) == Some(e)
  {
    var found := Entry(ledger, e.fingerprint).value;
    var i :| 0 <= i < |ledger| && ledger[i] == e;
    var j :| 0 <= j < |ledger| && ledger[j] == found;
  }

  lemma NewestIsTotal()
    ensures TotalPreorder(Newest)
  {
    forall a, b
      ensures Newest(a, b) || Newest(b, a)
    {
      StringLeTotal(a.fingerprint, b.fingerprint);
    }
    forall a, b, c | Newest(a, b) && Newest(b, c)
      ensures Newest(a, c)
    {
      if a.recordedAt == b.recordedAt == c.recordedAt {
        StringLeTransitive(c.fingerprint, b.fingerprint, a.fingerprint);
      }
    }
  }

  // What pruning keeps is in the ledger, every pending entry is kept, and no
  // fingerprint is duplicated.
  lemma PruneMembers(ledger: seq<LedgerEntry>, now: Instant)
    requires UniqueFingerprints(ledger)
    ensures UniqueFingerprints(PruneEntries(ledger, now))
    ensures forall e :: e in PruneEntries(ledger, now) ==> e in ledger
    ensures forall e :: e in ledger && e.IsActive() ==> e in PruneEntries(ledger, now)
  {
    var cutoff := now - MAX_INACTIVE_LEDGER_AGE;
    var kept := Filter(Unexpired(cutoff), ledger);
    var sorted := Sort(kept, Newest);
    var active := Filter(Active, ledger);
    SortMembers(kept, Newest);
    FilterDistinct(Unexpired(cutoff), ledger);
    FilterDistinct(Active, ledger);
    SortDistinct(kept, Newest);
    var pruned := PruneEntries(ledger, now);
    forall i, j | 0 <= i < j < |pruned|
      ensures pruned[i].fingerprint != pruned[j].fingerprint
    {
      assert pruned[i] in ledger && pruned[j] in ledger;
      if i < |active| <= j {
        assert pruned[i] in active && pruned[j] in sorted;
      }
      assert pruned[i] != pruned[j];
    }
  }

  // The pending entries survive in their order, and the entries kept beside them are sorted.
  lemma PruneShape(ledger: seq<LedgerEntry>, now: Instant)
    ensures Filter(Active, PruneEntries(ledger, now)) == Filter(Active, ledger)
  {
    var cutoff := now - MAX_INACTIVE_LEDGER_AGE;
    var kept := Filter(Unexpired(cutoff), ledger);
    var sorted := Sort(kept, Newest);
    SortMembers(kept, Newest);
    var top := Take(MAX_INACTIVE_LEDGER_ENTRIES, sorted);
    FilterConcat(Active, Filter(Active, ledger), top);
    FilterAll(Active, Filter(Active, ledger));
    forall e | e in top
      ensures !e.IsActive()
    {
      assert e in sorted;
    }
    FilterNone(Active, top);
  }

  // A later cutoff selects a prefix of the entries sorted under an earlier one.
  lemma LaterCutoffIsPrefix(ledger: seq<LedgerEntry>, c1: Instant, c2: Instant)
    requires c1 <= c2
    ensures var s1 := Sort(Filter(Unexpired(c1), ledger), Newest);
            var s2 := Sort(Filter(Unexpired(c2), ledger), Newest);
            Filter(Unexpired(c2), s1) == s2 && s2 == s1[..|s2|]
  {
    var p1, p2 := Unexpired(c1), Unexpired(c2);
    var kept := Filter(p1, ledger);
    var s1 := Sort(kept, Newest);
    NewestIsTotal();
    FilterSort(p2, kept, Newest);
    FilterFilter(p2, p1, ledger);
    assert Filter(p2, s1) == Sort(Filter(p2, ledger), Newest);
    LateIsPrefix(kept, c1, c2);
  }

  lemma LateIsPrefix(kept: seq<LedgerEntry>, c1: Instant, c2: Instant)
    requires forall e :: e in kept ==> Unexpired(c1)(e)
    ensures var s := Sort(kept, Newest); Filter(Unexpired(c2), s) == s[..|Filter(Unexpired(c2), s)|]
  {
    var s := Sort(kept, Newest);
    var late := (e: LedgerEntry) => e.recordedAt >= c2;
    NewestIsTotal();
    SortSorted(kept, Newest);
    SortMembers(kept, Newest);
    FilterPrefix(late, s, Newest);
    FilterSame(late, Unexpired(c2), s);
  }

  // Pruning at one time and again at a later time is pruning once at the later time.
  lemma PruneTwice(ledger: seq<LedgerEntry>, first: Instant, second: Instant)
    requires first <= second
    ensures PruneEntries(PruneEntries(ledger, first), second) == PruneEntries(ledger, second)
  {
    var c1, c2 := first - MAX_INACTIVE_LEDGER_AGE, second - MAX_INACTIVE_LEDGER_AGE;
    var p2 := Unexpired(c2);
    var s2 := Sort(Filter(p2, ledger), Newest);
    PruneShape(ledger, first);
    FilterAfterPrune(ledger, first, second);
    assert Filter(p2, PruneEntries(ledger, first)) == Take(MAX_INACTIVE_LEDGER_ENTRIES, s2);
    NewestIsTotal();
    SortSorted(Filter(p2, ledger), Newest);
    SortOfSorted(Take(MAX_INACTIVE_LEDGER_ENTRIES, s2), Newest);
  }

  lemma FilterAfterPrune(ledger: seq<LedgerEntry>, first: Instant, second: Instant)
    requires first <= second
    ensures Filter(Unexpired(second - MAX_INACTIVE_LEDGER_AGE), PruneEntries(ledger, first))
            == Take(MAX_INACTIVE_LEDGER_ENTRIES,
                    Sort(Filter(Unexpired(second - MAX_INACTIVE_LEDGER_AGE), ledger), Newest))
  {
    LaterCutoffIsPrefix(ledger, first - MAX_INACTIVE_LEDGER_AGE, second - MAX_INACTIVE_LEDGER_AGE);
    FilterCut(Unexpired(second - MAX_INACTIVE_LEDGER_AGE), Filter(Active, ledger),
              Sort(Filter(Unexpired(first - MAX_INACTIVE_LEDGER_AGE), ledger), Newest));
  }

  lemma FilterCut(p: LedgerEntry -> bool, rejected: seq<LedgerEntry>, xs: seq<LedgerEntry>)
    requires forall x :: x in rejected ==> !p(x)
    requires Filter(p, xs) == xs[..|Filter(p, xs)|]
    ensures Filter(p, rejected + Take(MAX_INACTIVE_LEDGER_ENTRIES, xs))
            == Take(MAX_INACTIVE_LEDGER_ENTRIES, Filter(p, xs))
  {
    var top := Take(MAX_INACTIVE_LEDGER_ENTRIES, xs);
    FilterConcat(p, rejected, top);
    FilterNone(p, rejected);
    FilterOfPrefix(p, xs, |top|);
  }

  // The unexpired final entries that come before an entry.
  function Ahead(ledger: seq<LedgerEntry>, e: LedgerEntry, now: Instant): seq<LedgerEntry> {
    Filter((f: LedgerEntry) => Unexpired(now - MAX_INACTIVE_LEDGER_AGE)(f) && f != e && NewerFirst(f, e), ledger)
  }

  // A final entry survives exactly when it is unexpired and fewer than 5,000
  // unexpired final entries are newer.
  lemma PruneKeepsNewest(ledger: seq<LedgerEntry>, e: LedgerEntry, now: Instant)
    requires UniqueFingerprints(ledger) && e in ledger && !e.IsActive()
    ensures e in PruneEntries(ledger, now) <==>
            && e.recordedAt >= now - MAX_INACTIVE_LEDGER_AGE
            && |Ahead(ledger, e, now)| < MAX_INACTIVE_LEDGER_ENTRIES
  {
    var p := Unexpired(now - MAX_INACTIVE_LEDGER_AGE);
    var kept := Filter(p, ledger);
    var sorted := Sort(kept, Newest);
    NewestIsTotal();
    SortSorted(kept, Newest);
    SortMembers(kept, Newest);
    assert e !in Filter(Active, ledger);
    if p(e) {
      var k :| 0 <= k < |sorted| && sorted[k] == e;
      FilterDistinct(p, ledger);
      SortDistinct(kept, Newest);
      PositionIsAhead(ledger, e, now, k);
      assert forall i :: 0 <= i < |sorted| && sorted[i] == e ==> i == k;
    }
  }

  lemma PositionIsAhead(ledger: seq<LedgerEntry>, e: LedgerEntry, now: Instant, k: nat)
    requires UniqueFingerprints(ledger)
    requires var sorted := Sort(Filter(Unexpired(now - MAX_INACTIVE_LEDGER_AGE), ledger), Newest);
             k < |sorted| && sorted[k] == e
    ensures |Ahead(ledger, e, now)| == k
  {
    var p := Unexpired(now - MAX_INACTIVE_LEDGER_AGE);
    var kept := Filter(p, ledger);
    var sorted := Sort(kept, Newest);
    var ahead := (f: LedgerEntry) => p(f) && f != e && NewerFirst(f, e);
    NewestIsTotal();
    FilterFilter(ahead, p, ledger);
    FilterSort(ahead, kept, Newest);
    assert |Filter(ahead, sorted)| == |Filter(ahead, ledger)|;
    FilterSame(ahead, (f: LedgerEntry) => Unexpired(now - MAX_INACTIVE_LEDGER_AGE)(f) && f != e && NewerFirst(f, e),
               ledger);
    assert |Ahead(ledger, e, now)| == |Filter(ahead, ledger)|;
    SortSorted(kept, Newest);
    SortMembers(kept, Newest);
    FilterDistinct(p, ledger);
    SortDistinct(kept, Newest);
    AheadInSorted(sorted, ahead, e, k);
  }

  lemma AheadInSorted(sorted: seq<LedgerEntry>, ahead: LedgerEntry -> bool, e: LedgerEntry, k: nat)
    requires Sorted(sorted, Newest) && Distinct(sorted) && k < |sorted| && sorted[k] == e
    requires forall a, b :: a in sorted && b in sorted && a.fingerprint == b.fingerprint ==> a == b
    requires forall f :: f in sorted ==> ahead(f) == (f != e && NewerFirst(f, e))
    ensures |Filter(ahead, sorted)| == k
  {
    forall i | 0 <= i < |sorted|
      ensures ahead(sorted[i]) == (i < k)
    {
      assert sorted[i] in sorted && sorted[k] in sorted;
      if i < k {
        assert Newest(sorted[i], sorted[k]);
      } else if i > k {
        assert Newest(sorted[k], sorted[i]);
        if NewerFirst(sorted[i], e) {
          StringLeAntisymmetric(sorted[i].fingerprint, e.fingerprint);
        }
      }
    }
    FilterSplit(ahead, sorted, k);
  }
}
