// What the summary of a generation counts.
module SummaryCounts {
  import opened Wrappers
  import opened Records
  import opened Sorting
  import opened ScanAssembly
  import opened ScanResolution
  import opened GenerationHistory
  import opened GenerationHealth

  // The places in a list at which something holds.
  function Places<T(!new)>(p: T -> bool, xs: seq<T>): set<nat> {
    set i: nat | i < |xs| && p(xs[i])
  }

  // The places of the findings: the group, and the finding in it.
  function FindingPlaces(groups: seq<SecurityFindingGroup>): set<(nat, nat)> {
    set g: nat, j: nat | g < |groups| && j < |groups[g].findings| :: (g, j)
  }

  function Row(g: nat, count: nat): (r: set<(nat, nat)>)
    ensures |r| == count
    ensures forall p :: p in r <==> p.0 == g && p.1 < count
  {
    if count == 0 then {} else Row(g, count - 1) + {(g, count - 1)}
  }

  lemma OnePlaceMore<T(!new)>(p: T -> bool, xs: seq<T>, x: T)
    ensures |Places(p, xs + [x])| == |Places(p, xs)| + if p(x) then 1 else 0
  {
    assert Places(p, xs + [x]) == Places(p, xs) + if p(x) then {|xs|} else {};
  }

  lemma {:induction false} FilterCounts<T(!new)>(p: T -> bool, xs: seq<T>)
    ensures |Filter(p, xs)| == |Places(p, xs)|
  {
    if xs != [] {
      var n := |xs| - 1;
      FilterCounts(p, xs[..n]);
      OnePlaceMore(p, xs[..n], xs[n]);
      FilterConcat(p, xs[..n], [xs[n]]);
      assert xs[..n] + [xs[n]] == xs;
    }
  }

  lemma {:induction false} OneGroupMore(groups: seq<SecurityFindingGroup>, last: SecurityFindingGroup)
    ensures FindingCount(groups + [last]) == FindingCount(groups) + |last.findings|
  {
    if groups == [] {
      assert [] + [last] == [last] && [last][1..] == [];
    } else {
      assert (groups + [last])[1..] == groups[1..] + [last];
      OneGroupMore(groups[1..], last);
    }
  }

  lemma {:induction false} FindingsCounted(groups: seq<SecurityFindingGroup>)
    ensures FindingCount(groups) == |FindingPlaces(groups)|
  {
    if groups != [] {
      var n := |groups| - 1;
      FindingsCounted(groups[..n]);
      OneGroupMore(groups[..n], groups[n]);
      assert groups[..n] + [groups[n]] == groups;
      var row := Row(n, |groups[n].findings|);
      assert FindingPlaces(groups) == FindingPlaces(groups[..n]) + row;
      assert FindingPlaces(groups[..n]) !! row;
    } else {
      assert FindingPlaces(groups) == {};
    }
  }

  // In every generation of a chain the summary says how many items are listed and how
  // many of them are watched, how many findings there are in all the groups, and how
  // many of the listed sources are neither OK nor not applicable.
  lemma SummaryMeans(sha: Sha256, h: History)
    requires WellFormed(h) && h.Then?
    ensures Chain(sha, h).Ok? && Chain(sha, h).value.Some?
    ensures var payload := Chain(sha, h).value.value.snapshot.payload;
            && payload.summary.totalUpdates == |payload.items|
            && payload.summary.watchedUpdates
               == |Places((item: NormalizedItem) => item.watchMode in {Temporary, Permanent}, payload.items)|
            && payload.summary.securityFindings == |FindingPlaces(payload.findings)|
            && payload.summary.degradedSources
               == |Places((s: SourceHealth) => s.status !in {OK, NotApplicable}, payload.sources)|
  {
    ChainStep(sha, h);
    Counted(Chain(sha, h).value.value.snapshot.payload);
  }

  lemma Counted(payload: SnapshotPayload)
    requires payload.summary == Summarise(payload.items, payload.findings, payload.sources)
    ensures payload.summary.watchedUpdates
            == |Places((item: NormalizedItem) => item.watchMode in {Temporary, Permanent}, payload.items)|
    ensures payload.summary.securityFindings == |FindingPlaces(payload.findings)|
    ensures payload.summary.degradedSources
            == |Places((s: SourceHealth) => s.status !in {OK, NotApplicable}, payload.sources)|
  {
    var watched := (item: NormalizedItem) => item.watchMode in {Temporary, Permanent};
    FilterCounts(watched, payload.items);
    FilterSame(watched, (item: NormalizedItem) => !item.watchMode.Off?, payload.items);
    FindingsCounted(payload.findings);
    var degraded := (s: SourceHealth) => s.status !in {OK, NotApplicable};
    FilterCounts(degraded, payload.sources);
    FilterSame(degraded, (s: SourceHealth) => !SuccessStatus(s.status), payload.sources);
  }
}
